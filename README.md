# Daily Jain menu: a verified model of the job's own logic

The daily-jain-menu job runs once a day:

1. It fetches a 5-day / 3-hour forecast for a location.
2. It picks one "evening" sample from the forecast and flattens it into a small weather record.
3. It asks a language model for a Jain vegetarian dinner menu that suits that weather.
4. It formats the menu as a plain-text email.
5. It sends the email to a comma-separated list of recipients.

This project models everything in `main.py` that is not a network call:

- **`Forecast`** (`forecast.dfy`) models `get_evening_weather` once the response is decoded:
  - The loop walks the forecast list. It takes the first sample whose `dt_txt` is at least 13 characters long and whose hour field `dt_txt[11:13]` reads as 0 to 7.
  - An hour field that Python's `int()` rejects raises `ValueError`.
  - When no sample qualifies, the job falls back to `list[0]`. This fails with `KeyError` when there is no list and with `IndexError` when the list is empty.
  - The chosen sample is then flattened into the weather record. A missing `main`, `wind` or `weather` object leaves the matching fields `None`.
  - The method `GetEveningWeather` keeps the source's loop, with its mutable `chosen`, its early exit and its fallback. It is proved against the function `EveningWeather`, and the selection lemmas are stated about that function.
- **`EmailBody`** (`email_body.dfy`) models `format_email` and its helper `section`:
  - The body is a list of lines that grows one append at a time. One method appends each block: header, course, side, dessert, shopping list and compliance notes.
  - `FormatEmail` chains these methods and joins the lines with newlines. It is proved equal to the specification function `Body`.
  - The lemmas place the title, the section rules, the appetizer's ingredients and steps, and the side block in the line list.
- **`Recipients`** (`recipients.dfy`) models the recipient parsing of `send_email`: split `EMAIL_TO` on commas, strip each piece, drop the blank ones. Its partner is the `To` header, the addresses joined with `", "`.
- **`MenuRequest`** (`menu_request.dfy`) models the request `generate_jain_menu` posts:
  - the constant system prompt;
  - the user prompt around the weather JSON text;
  - the model name and the JSON response format.
- **`PyText`** (`py_text.dfy`) models the Python string built-ins the job uses:
  - `str.isspace`, `strip`, and `split` with a one-character separator;
  - `join`, `'=' * n`, `capitalize`;
  - `int()` on a two-character string.
- **`Wrappers`** (`wrappers.dfy`) holds `Option` and `Result`.

Decoded JSON is modelled as datatypes:

- A key that may be missing is an `Option`, and `None` means the key is absent. For `weather`, `description`, the readings and the wind speed, a JSON `null` behaves exactly like an absent key in `main.py`, so `None` covers it too. For `side`, `None` stands for any falsy value.
- Temperatures, wind speed, humidity and cooking times are never computed with. They are kept as the text Python prints for them (`JsonNumber`), and `None` prints as `None`.

## Model

| member | source | states |
|---|---|---|
| Forecast.GetEveningWeather | main.py:30-56 | The loop with its `break`, its `ValueError` exit and its `list[0]` fallback returns exactly `EveningWeather(location, data)`. On success the record carries `location` unchanged. |
| Forecast.ScanFrom | main.py:33-39 | The scan from position `i` stops only at a sample whose hour field reads 0..7 (picked) or at one whose hour field `int()` rejects (raised). Either index is within the list. |
| Forecast.PassedOverStep | main.py:33-37 | Passing over every sample in `[i, k)` means passing over sample `i` and then every sample in `[i + 1, k)`. |
| Forecast.ScanFromPicks | main.py:33-39 | From position `i`, the scan picks `k` iff `k` qualifies and every sample in `[i, k)` is passed over. |
| Forecast.ScanFromRaises | main.py:33-39 | From position `i`, the scan raises at `k` iff `int()` rejects `k`'s hour field and every sample in `[i, k)` is passed over. |
| Forecast.ScanFromRunsOut | main.py:33-40 | From position `i`, the scan runs out iff every sample from `i` on is passed over. |
| Forecast.ScanCharacterized | main.py:33-39 | The pick is the first qualifying sample, and no earlier sample qualifies or raises. It raises at the first unreadable hour field that comes before any qualifying sample. It runs out iff every sample is passed over. |
| Forecast.Chosen | main.py:30-42 | The chosen sample is always a sample of the list, and it is either a qualifying sample or `list[0]`. A missing list fails, and a `ValueError` comes from a sample whose hour field `int()` rejects. |
| Forecast.EveningWeather | main.py:30-56 | The record exists exactly when a sample was chosen. It carries `location` and the chosen sample's `dt_txt`. |
| Forecast.SampleOutcomesExclusive | main.py:34-37 | Each sample is taken, passed over, or raised on, and exactly one of the three. |
| Forecast.ShortTimestampNeverPicked | main.py:34-35 | A sample whose `dt_txt` is missing or shorter than 13 characters is never picked. |
| Forecast.ProviderTimestampQualifies | main.py:34-37 | For a provider timestamp `YYYY-MM-DD HH...`, the sample qualifies iff `HH <= 7`, and reading its hour never raises. |
| Forecast.FirstEveningSampleUsed | main.py:33-49 | When sample `k` qualifies and every earlier one is passed over, the record is built from sample `k`, and its `forecast_time_utc` is that sample's `dt_txt`. |
| Forecast.FallBackToFirstSample | main.py:41-42 | When no sample qualifies and none raises, the record is built from `list[0]`. |
| Forecast.EveningWeatherFails | main.py:33-42 | A missing list gives `KeyError("list")`; an empty list gives `IndexError`. The selection fails iff the list is empty or an unreadable hour field comes before any qualifying sample. |
| Forecast.RecordComesFromChosenSample | main.py:41-50 | On success, the chosen sample is in the list and is either a qualifying sample or `list[0]`. The record keeps `location` and that sample's `dt_txt`. |
| Forecast.Flatten | main.py:44-56 | The record passes through `location` and `dt_txt`. It copies temperature, feels-like and humidity from `main`, the first `weather` entry's description, and the wind speed. A missing `main` or `wind` object, or a missing or empty `weather` array, leaves those fields `None`. |
| EmailBody.FormatEmail | main.py:195-252 | The returned body is `Body(weather, menu)`: the lines in source order, joined with newlines. |
| EmailBody.BodyLines | main.py:199-250 | The line list opens with the menu title and is long enough to hold the header, both course blocks and what follows them. |
| EmailBody.AppendHeader | main.py:200-207 | Appends the title, a blank line, the weather block (a `None` value prints as `None`), a blank line and the weather-fit summary. |
| EmailBody.AppendBullets | main.py:213-214 | Appends every item as `"- " + item`, in input order, after the existing lines. |
| EmailBody.AppendCourse | main.py:210-217 | Appends a course's section, its name line, `Ingredients:` with the ingredient bullets, then `Steps:` with the step bullets. |
| EmailBody.AppendSide | main.py:229-234 | Appends `"\nSide:"`, the side's name line and its step bullets when there is a side. Otherwise it appends nothing. |
| EmailBody.AppendDessert | main.py:236-240 | Appends the dessert section, its name line and its step bullets, with no ingredients. |
| EmailBody.AppendShopping | main.py:242-246 | Appends the shopping-list section, then each category in order as its capitalized name plus `:`, followed by its item bullets. |
| EmailBody.AppendCompliance | main.py:248-250 | Appends the compliance section and one bullet per note, in order. |
| EmailBody.CategoryLinesAppend | main.py:243-246 | Adding one category at the end of the shopping list adds exactly its heading and its bullets at the end of the listing. |
| EmailBody.BodyLinesInOrder | main.py:199-250 | Appending the blocks one after another gives exactly the body's line list. |
| EmailBody.SectionRules | main.py:196-197 | Split on newlines, `section(t)` is an empty line, a rule, `t`, a rule and an empty line. Both rules are `=` repeated exactly `len(t)` times. |
| EmailBody.Section | main.py:196-197 | `section(t)` is `3 * len(t) + 4` characters long and starts and ends with a newline. |
| EmailBody.FramedTitleSplit | main.py:197 | Any newline-free title between two newline-free rules splits back into those five lines. |
| EmailBody.Body | main.py:199-252 | The body is the line list joined with newlines; it opens with the menu title followed by a newline. |
| EmailBody.CourseLayout | main.py:210-217 | Inside a course block, ingredient `i` is line `3 + i` and step `i` is line `4 + n + i`, each as `"- " + item`. The block has `4 + n + m` lines. |
| EmailBody.AppetizerListed | main.py:199-220 | Line 0 is the title and line 8 is the appetizer section. Ingredients follow `Ingredients:` and steps follow `Steps:`, as `"- "` bullets in input order. The main section comes right after. |
| EmailBody.LinesBeforeSide | main.py:199-227 | The lines before the side block are the header and the two course blocks, `SideIndex(menu)` lines in all. |
| EmailBody.SideShownIffPresent | main.py:229-237 | The line at `SideIndex(menu)` is `"\nSide:"` iff the main course has a truthy side. Otherwise that line is the dessert section. |
| EmailBody.SideIsOnlyDifference | main.py:229-234 | A menu's lines are those of the same menu without a side, with the side block inserted at `SideIndex(menu)` and nothing else changed. |
| Recipients.KeepNonBlank | main.py:176 | Keeping the stripped, non-blank pieces never yields more entries than pieces. Every entry is non-empty and has no whitespace at either end. |
| Recipients.ParseRecipients | main.py:176 | Every recipient is non-empty, comma-free and has no whitespace at either end. There are at most as many recipients as comma-separated pieces, that is, one more than the number of commas. |
| Recipients.CommaFreeKept | main.py:176 | Stripping comma-free pieces keeps them comma-free. |
| Recipients.StripKeepsOut | main.py:176 | `strip()` brings in no character that was not already in the piece. |
| Recipients.KeepNonBlankAppend | main.py:176 | Filtering a concatenation gives the two filtered parts in the same order. |
| Recipients.KeepAround | main.py:176 | Each piece contributes its stripped text, or nothing when that is blank, between what the pieces before it and after it contribute. |
| Recipients.ParseKeepsOrder | main.py:176 | The same holds for the `j`-th comma-separated piece of `EMAIL_TO`, so input order is preserved. |
| Recipients.SplitHeader | main.py:182 | Splitting the `To` header on commas gives the first address, then each later address behind one space. |
| Recipients.ToHeader | main.py:182 | The `To` header opens with the first address and is as long as the addresses plus two characters of `", "` between each two neighbours; no addresses give an empty header. |
| Recipients.StripClean | main.py:176 | An address with no whitespace at either end strips to itself. |
| Recipients.StripSpaced | main.py:176-182 | Such an address behind the header's space strips back to itself. |
| Recipients.KeepSpaced | main.py:176-182 | A list of clean addresses, each behind its space, is kept exactly. |
| Recipients.HeaderRoundTrip | main.py:176-182 | Parsing the `To` header built from clean addresses gives back exactly those addresses. |
| Recipients.JoinedRoundTrip | main.py:176-182 | Splitting the `", "`-joined clean addresses on commas, stripping and dropping blanks gives the addresses back. |
| Recipients.ParseHeaderIdempotent | main.py:176-182 | Parsing, joining into the header and parsing again gives the first parse's result. |
| MenuRequest.RequestFor | main.py:153-160 | The payload asks model `gpt-4.1-mini` for a JSON object and carries two messages: first the system prompt, the same for every weather, then a user message whose content is the user prompt built around the weather text. |
| MenuRequest.SystemPrompt | main.py:65-78 | The system prompt is its twelve lines joined with newlines and opens with the chef's role on a line of its own. |
| MenuRequest.UserPrompt | main.py:80-145 | The user prompt is the fixed head, then the weather JSON text verbatim, then the fixed tail, and its length is the sum of the three. |
| MenuRequest.ThreeParts | main.py:80-145 | Proof helper for `UserPrompt`, not a model of the prompt itself: the head, the middle and the tail of any concatenation can each be cut back out of it at their offsets. |
| MenuRequest.WeatherOnlyInUserPrompt | main.py:65-158 | Any two requests share the model `gpt-4.1-mini`, the system message and the `json_object` format. They are equal iff their weather texts are equal. |
| PyText.Strip | main.py:176 | `strip()` returns a slice of its input with only whitespace around it. The slice neither starts nor ends with whitespace, and it is empty iff the input is all whitespace. |
| PyText.SkipSpaceForward | main.py:176 | Gives the index of the first non-whitespace character from `i` on. |
| PyText.SkipSpaceBackward | main.py:176 | Gives the end of a slice once its trailing whitespace is cut. |
| PyText.Split | main.py:176 | `split(sep)` gives at least one piece, and no piece holds the separator. |
| PyText.SplitCount | main.py:176 | `split(sep)` gives one piece more than there are separators. |
| PyText.JoinSplit | main.py:176 | Joining the pieces of `split(sep)` with `sep` gives the original string. |
| PyText.Join | main.py:252 | `sep.join(parts)`: the pieces in order with one separator between each two neighbours; its properties are stated by `JoinSplit`, `SplitJoin`, `JoinLength` and `JoinStartsWithFirst`. |
| PyText.JoinLength | main.py:182 | A join is as long as its pieces plus one separator between each two neighbours. |
| PyText.JoinStartsWithFirst | main.py:182 | A join opens with its first piece. |
| PyText.SplitJoin | main.py:182 | Splitting a join of separator-free pieces gives the pieces back. |
| PyText.SplitWithoutSeparator | main.py:176 | A separator-free string splits into itself. |
| PyText.SplitAtSeparator | main.py:176 | A separator-free head before a separator becomes the first piece. |
| PyText.JoinGlueFirst | main.py:252 | A prefix glued onto the first piece ends up at the front of the join. |
| PyText.Repeat | main.py:197 | `c * n` has length `n`, and every character is `c`. |
| PyText.ToLower | main.py:244 | An ASCII upper-case letter becomes the lower-case letter 32 code points above it; every other character is unchanged. |
| PyText.ToUpper | main.py:244 | An ASCII lower-case letter becomes the upper-case letter 32 code points below it; every other character is unchanged. |
| PyText.LowerAll | main.py:244 | Lowering keeps the length, turns every ASCII upper-case letter into its lower-case letter and changes nothing else. |
| PyText.Capitalize | main.py:244 | `capitalize()` keeps the length, turns an ASCII lower-case first letter into its upper-case letter, turns every later ASCII upper-case letter into its lower-case letter, and changes nothing else. |
| PyText.CapitalizeIdempotent | main.py:244 | Capitalizing a second time changes nothing. |
| PyText.IntOfTwoChars | main.py:36 | `int()` of a two-character field accepts only forms with a digit. The value lies in -9..99 and is negative only after a `-` sign. A non-digit character is a sign before the digit or whitespace that `int()` skips; the ASCII separators 0x1C..0x1F do not count as such whitespace. |
| PyText.IntRejectsSeparators | main.py:36 | A separator 0x1C..0x1F next to a digit is whitespace for `str.isspace()`, yet `int()` rejects the field with `ValueError`. |
| PyText.IntOfTwoDigits | main.py:36 | A zero-padded two-digit hour reads back as itself. |
| PyText.DigitChar | main.py:36 | The digit character for `d < 10` is a digit whose value is `d`. |

## Left out

- The HTTP calls:
  - the forecast fetch (main.py:26-28) and the menu request (main.py:147-162), including `raise_for_status`;
  - decoding the model's reply (main.py:164-168). The model takes the decoded forecast and the decoded menu as inputs.
- `json.dumps(weather, indent=2)` (main.py:82): its text is a parameter of `MenuRequest.UserPrompt`. `json.loads` is not modelled.
- The parts of `send_email` other than parsing: the `From` and `Subject` headers, SMTP over SSL and login (main.py:180-189). Of the headers, only the `To` header is modelled.
- `os.environ` reads, the API key headers and `datetime.now()` in the subject line (main.py:63, 149, 175-178, 259-263). These are ambient configuration and the clock.
- `main()` (main.py:259-268). It only calls the modelled pieces in order and prints a message.
- A JSON `null` for `list`, `dt_txt`, `main` or `wind`. Python raises `TypeError` for a null `list` (the `for` loop) or a null `dt_txt` reached by the loop (`len`), and `AttributeError` for a null `main` or `wind` (`.get`). The datatypes have no null case for these keys: `Forecast.Chosen` reports `KeyError("list")` where Python would raise `TypeError`, and a null `dt_txt` is read as the empty default, so the sample is passed over instead of raising.
- Other ill-typed JSON (a non-dict where the code calls `.get`, a non-list where it iterates) and a menu missing keys the formatter indexes, which raise `AttributeError`, `TypeError` or `KeyError`. The datatypes admit only well-typed values.
- Menu fields the formatter never reads: `servings`, `plating_note`, and the side's ingredients.
- PyText.IntOfTwoChars: models only ASCII digits. Python's `int()` also accepts other Unicode decimal digits.
- PyText.Capitalize: models only ASCII letters. Python's `capitalize()` also changes the case of other letters and title-cases the first character.
- The system prompt's line structure is stated as a constant list of lines. No lemma splits the joined prompt back into lines, because character-level reasoning over long string literals does not fit within the verifier's resource limit.
- The side block is stated at the level of the line list (`EmailBody.SideShownIffPresent`). Menu text is arbitrary and may itself contain `"\nSide:"`, so "the body contains `\nSide:` iff there is a side" does not hold for the joined string.
