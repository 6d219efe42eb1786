/**
 * The request the job sends to the language model for the day's menu: a
 * fixed system prompt with the chef's rules, a user prompt that embeds the
 * evening weather as JSON text, the model name and the JSON response format.
 */
module MenuRequest {
  import opened PyText

  /** The lines of the system prompt, which the source writes as adjacent literals ending in newlines. */
  const SystemPromptLines: seq<string> := [
    "You are a professional Indian home chef specializing in HEALTHY Jain vegetarian cooking.",
    "STRICT RULES:",
    "- Vegetarian only.",
    "- NO onion, NO garlic.",
    "- Avoid root vegetables: potato, carrot, beet, radish, sweet potato, yam.",
    "- Use hing, ginger, tomatoes, herbs, spices for flavor.",
    "- Healthy bias: steaming, simmering, roasting, light sautéing.",
    "- Avoid deep frying.",
    "- Moderate sugar; desserts should be lighter in hot weather.",
    "- Recipes must be realistic, cookable, and weeknight-appropriate.",
    "- Tone: polished, professional, cookbook-quality.",
    "- Do NOT mention AI, disclaimers, or substitutions unless required for Jain compliance."
  ]

  /**
   * The system prompt: its lines joined with newlines, the last one without a
   * trailing newline, so it opens with the chef's role on a line of its own.
   */
  function SystemPrompt(): (p: string)
    ensures SystemPromptLines[0] + "\n" <= p
  {
    var lines := SystemPromptLines;
    assert Join(lines, "\n") == lines[0] + "\n" + Join(lines[1..], "\n");
    Join(lines, "\n")
  }

  /** What comes before the weather JSON in the user prompt. */
  const UserPromptHead: string := "\nEvening weather for Orange, California:\n"

  /** The lines after the weather JSON, with the doubled braces of the f-string already undone. */
  const UserPromptTailLines: seq<string> := [
    "",
    "",
    "Create a COMPLETE Indian Jain dinner menu with:",
    "• 1 Appetizer",
    "• 1 Main (include a simple side if appropriate)",
    "• 1 Dessert",
    "",
    "Adjust the menu to the weather:",
    "- Cold / windy / rainy → warm, comforting foods",
    "- Hot / humid → lighter, cooling foods",
    "- Mild → balanced, healthy meal",
    "",
    "Return STRICT JSON ONLY in this exact structure:",
    "",
    "{",
    "  \"title\": \"string\",",
    "  \"weather_fit_summary\": \"string\",",
    "  \"menu\": {",
    "    \"appetizer\": {",
    "      \"name\": \"string\",",
    "      \"time_minutes\": integer,",
    "      \"servings\": integer,",
    "      \"ingredients\": [\"string\"],",
    "      \"steps\": [\"string\"],",
    "      \"plating_note\": \"string\"",
    "    },",
    "    \"main\": {",
    "      \"name\": \"string\",",
    "      \"time_minutes\": integer,",
    "      \"servings\": integer,",
    "      \"ingredients\": [\"string\"],",
    "      \"steps\": [\"string\"],",
    "      \"side\": {",
    "        \"name\": \"string\",",
    "        \"time_minutes\": integer,",
    "        \"ingredients\": [\"string\"],",
    "        \"steps\": [\"string\"]",
    "      },",
    "      \"plating_note\": \"string\"",
    "    },",
    "    \"dessert\": {",
    "      \"name\": \"string\",",
    "      \"time_minutes\": integer,",
    "      \"servings\": integer,",
    "      \"ingredients\": [\"string\"],",
    "      \"steps\": [\"string\"],",
    "      \"plating_note\": \"string\"",
    "    }",
    "  },",
    "  \"shopping_list\": {",
    "    \"produce\": [\"string\"],",
    "    \"pantry\": [\"string\"],",
    "    \"dairy\": [\"string\"],",
    "    \"spices\": [\"string\"]",
    "  },",
    "  \"jain_compliance_notes\": [\"string\"]",
    "}",
    "",
    "RULES:",
    "- No prohibited ingredients.",
    "- Clear steps.",
    "- Common household measurements.",
    "- Professional tone only.",
    ""
  ]

  /** What comes after the weather JSON in the user prompt. */
  const UserPromptTail: string := Join(UserPromptTailLines, "\n")

  /** The model the menu is asked of. */
  const ModelName: string := "gpt-4.1-mini"

  /** One chat message: who speaks, and what they say. */
  datatype Message = Message(role: string, content: string)

  /** The JSON payload posted to the responses endpoint. */
  datatype MenuRequestPayload = MenuRequestPayload(model: string, input: seq<Message>, formatType: string)

  /** The user prompt around `weatherJson`, the text `json.dumps(weather, indent=2)` produced. */
  function UserPrompt(weatherJson: string): (u: string)
    ensures |u| == |UserPromptHead| + |weatherJson| + |UserPromptTail|
    ensures u[..|UserPromptHead|] == UserPromptHead
    ensures u[|UserPromptHead|..|UserPromptHead| + |weatherJson|] == weatherJson
    ensures u[|UserPromptHead| + |weatherJson|..] == UserPromptTail
  {
    ThreeParts(UserPromptHead, weatherJson, UserPromptTail);
    UserPromptHead + weatherJson + UserPromptTail
  }

  /** The three parts of a concatenation can be cut back out of it. */
  lemma ThreeParts(head: string, middle: string, tail: string)
    ensures var u := head + middle + tail;
      && |u| == |head| + |middle| + |tail|
      && u[..|head|] == head
      && u[|head|..|head| + |middle|] == middle
      && u[|head| + |middle|..] == tail
  {
  }

  /**
   * The payload of `generate_jain_menu`: the system message comes first and
   * is the same for every weather, the user message second and carrying the
   * user prompt built around the weather text, and the response is asked
   * for as a JSON object of the fixed model.
   */
  function RequestFor(weatherJson: string): (r: MenuRequestPayload)
    ensures |r.input| == 2
    ensures r.input[0] == Message("system", SystemPrompt())
    ensures r.input[1] == Message("user", UserPrompt(weatherJson))
    ensures r.model == ModelName && r.formatType == "json_object"
  {
    MenuRequestPayload(
      ModelName,
      [Message("system", SystemPrompt()), Message("user", UserPrompt(weatherJson))],
      "json_object")
  }

  /**
   * The weather reaches the request only through the user prompt: two
   * requests share model, system message and format, and they are equal
   * exactly when the weather texts are.
   */
  lemma WeatherOnlyInUserPrompt(w1: string, w2: string)
    ensures RequestFor(w1).model == RequestFor(w2).model == ModelName
    ensures RequestFor(w1).input[0] == RequestFor(w2).input[0]
    ensures RequestFor(w1).formatType == RequestFor(w2).formatType == "json_object"
    ensures RequestFor(w1) == RequestFor(w2) <==> w1 == w2
  {
    if RequestFor(w1) == RequestFor(w2) {
      var u1, u2 := UserPrompt(w1), UserPrompt(w2);
      assert u1 == RequestFor(w1).input[1].content;
      assert |w1| == |w2|;
    }
  }
}
