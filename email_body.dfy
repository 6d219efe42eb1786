/**
 * The plain-text body of the daily email: a header with the weather, one
 * section per course, the shopping list and the compliance notes, built as a
 * list of lines and joined with newlines.
 *
 * The menu is the generation service's JSON once decoded, with the fields
 * the formatter reads; a course's `side` is `None` when it is absent, null or
 * any other falsy value.
 */
module EmailBody {
  import opened Wrappers
  import opened PyText
  import opened Forecast

  datatype Course = Course(name: string, timeMinutes: JsonNumber, ingredients: seq<string>, steps: seq<string>)

  datatype SideDish = SideDish(name: string, timeMinutes: JsonNumber, steps: seq<string>)

  datatype MainCourse = MainCourse(course: Course, side: Option<SideDish>)

  /** One `category: items` entry of the shopping list, in the dictionary's order. */
  datatype Category = Category(name: string, items: seq<string>)

  datatype Menu = Menu(
    title: string,
    weatherFitSummary: string,
    appetizer: Course,
    main: MainCourse,
    dessert: Course,
    shoppingList: seq<Category>,
    complianceNotes: seq<string>)

  /** `section(title)`: the title between two rules of `=`, each line ended by a newline. */
  function Section(title: string): (r: string)
    ensures |r| == 3 * |title| + 4
    ensures r[0] == '\n' && r[|r| - 1] == '\n'
  {
    var rule := Repeat('=', |title|);
    var last := rule + "\n";
    var r := "\n" + (rule + ("\n" + (title + ("\n" + last))));
    assert r[|r| - 1] == last[|last| - 1];
    r
  }

  /** What an f-string prints for an optional value: Python prints None as "None". */
  function ShowNumber(v: Option<JsonNumber>): string {
    if v.Some? then v.value.text else "None"
  }

  function ShowText(v: Option<string>): string {
    if v.Some? then v.value else "None"
  }

  /** `f"- {item}"` for each item, in order. */
  function Bullets(items: seq<string>): seq<string> {
    seq(|items|, i requires 0 <= i < |items| => "- " + items[i])
  }

  /** `f"{name} ({time_minutes} min)"`. */
  function DishLine(name: string, timeMinutes: JsonNumber): string {
    name + " (" + timeMinutes.text + " min)"
  }

  function HeaderLines(w: WeatherRecord, menu: Menu): seq<string> {
    [ menu.title,
      "",
      "Weather (Evening):",
      "- Temp: " + ShowNumber(w.tempF) + "°F (feels " + ShowNumber(w.feelsLikeF) + "°F)",
      "- Conditions: " + ShowText(w.conditions),
      "- Wind: " + ShowNumber(w.windMph) + " mph | Humidity: " + ShowNumber(w.humidityPct) + "%",
      "",
      menu.weatherFitSummary ]
  }

  /** A course printed with its ingredients and its steps. */
  function CourseLines(heading: string, c: Course): seq<string> {
    [Section(heading), DishLine(c.name, c.timeMinutes), "Ingredients:"] + Bullets(c.ingredients)
      + ["Steps:"] + Bullets(c.steps)
  }

  function SideLines(side: Option<SideDish>): seq<string> {
    match side
    case None => []
    case Some(s) => ["\nSide:", DishLine(s.name, s.timeMinutes)] + Bullets(s.steps)
  }

  /** The dessert is printed with its steps only. */
  function DessertLines(d: Course): seq<string> {
    [Section("DESSERT"), DishLine(d.name, d.timeMinutes)] + Bullets(d.steps)
  }

  function CategoryLines(cats: seq<Category>): seq<string> {
    if cats == [] then []
    else [Capitalize(cats[0].name) + ":"] + Bullets(cats[0].items) + CategoryLines(cats[1..])
  }

  function ShoppingLines(cats: seq<Category>): seq<string> {
    [Section("SHOPPING LIST")] + CategoryLines(cats)
  }

  function ComplianceLines(notes: seq<string>): seq<string> {
    [Section("JAIN COMPLIANCE")] + Bullets(notes)
  }

  /** Everything after the main course: side, dessert, shopping list and notes. */
  function LinesAfterMain(menu: Menu): seq<string> {
    SideLines(menu.main.side)
      + (DessertLines(menu.dessert) + (ShoppingLines(menu.shoppingList) + ComplianceLines(menu.complianceNotes)))
  }

  /** The lines of the body, in the order `format_email` appends them; the title comes first. */
  function BodyLines(w: WeatherRecord, menu: Menu): (r: seq<string>)
    ensures |r| > SideIndex(menu)
    ensures r[0] == menu.title
  {
    CourseLayout("APPETIZER", menu.appetizer);
    CourseLayout("MAIN", menu.main.course);
    HeaderLines(w, menu)
      + (CourseLines("APPETIZER", menu.appetizer)
      + (CourseLines("MAIN", menu.main.course) + LinesAfterMain(menu)))
  }

  /** The body: the lines joined with newlines, so it opens with the title on a line of its own. */
  function Body(w: WeatherRecord, menu: Menu): (b: string)
    ensures menu.title + "\n" <= b
  {
    var lines := BodyLines(w, menu);
    assert Join(lines, "\n") == menu.title + "\n" + Join(lines[1..], "\n");
    Join(lines, "\n")
  }

  // ---------------------------------------------------------------------------
  // format_email
  // ---------------------------------------------------------------------------

  /** `for i in items: lines.append(f"- {i}")`. */
  method AppendBullets(lines: seq<string>, items: seq<string>) returns (out: seq<string>)
    ensures out == lines + Bullets(items)
  {
    out := lines;
    for k := 0 to |items|
      invariant out == lines + Bullets(items[..k])
    {
      out := out + ["- " + items[k]];
    }
    assert items[..|items|] == items;
  }

  lemma {:induction false} CategoryLinesAppend(cats: seq<Category>, c: Category)
    ensures CategoryLines(cats + [c]) == CategoryLines(cats) + ([Capitalize(c.name) + ":"] + Bullets(c.items))
  {
    if cats == [] {
      assert [c][1..] == [];
    } else {
      assert (cats + [c])[1..] == cats[1..] + [c];
      CategoryLinesAppend(cats[1..], c);
    }
  }

  /** A course section: its rule-framed heading, its name line, then ingredients and steps as bullets. */
  method AppendCourse(lines: seq<string>, heading: string, c: Course) returns (out: seq<string>)
    ensures out == lines + CourseLines(heading, c)
  {
    out := lines + [Section(heading)];
    out := out + [DishLine(c.name, c.timeMinutes)];
    out := out + ["Ingredients:"];
    out := AppendBullets(out, c.ingredients);
    out := out + ["Steps:"];
    out := AppendBullets(out, c.steps);
  }

  /** The title, the weather block and the weather-fit summary. */
  method AppendHeader(lines: seq<string>, weather: WeatherRecord, menu: Menu) returns (out: seq<string>)
    ensures out == lines + HeaderLines(weather, menu)
  {
    out := lines + [menu.title];
    out := out + [""];
    out := out + ["Weather (Evening):"];
    out := out + ["- Temp: " + ShowNumber(weather.tempF) + "°F (feels " + ShowNumber(weather.feelsLikeF) + "°F)"];
    out := out + ["- Conditions: " + ShowText(weather.conditions)];
    out := out + ["- Wind: " + ShowNumber(weather.windMph) + " mph | Humidity: " + ShowNumber(weather.humidityPct) + "%"];
    out := out + [""];
    out := out + [menu.weatherFitSummary];
  }

  /** The side block, printed only when the main course has a truthy `side`. */
  method AppendSide(lines: seq<string>, side: Option<SideDish>) returns (out: seq<string>)
    ensures out == lines + SideLines(side)
  {
    out := lines;
    if side.Some? {
      var named := DishLine(side.value.name, side.value.timeMinutes);
      out := out + ["\nSide:"];
      out := out + [named];
      AppendAssoc(lines, ["\nSide:"], [named]);
      out := AppendBullets(out, side.value.steps);
      AppendAssoc(lines, ["\nSide:", named], Bullets(side.value.steps));
    }
  }

  /** The dessert section: its name line and its steps. */
  method AppendDessert(lines: seq<string>, d: Course) returns (out: seq<string>)
    ensures out == lines + DessertLines(d)
  {
    var named := DishLine(d.name, d.timeMinutes);
    out := lines + [Section("DESSERT")];
    out := out + [named];
    AppendAssoc(lines, [Section("DESSERT")], [named]);
    out := AppendBullets(out, d.steps);
    AppendAssoc(lines, [Section("DESSERT"), named], Bullets(d.steps));
  }

  /** The shopping list: each category, capitalized, followed by its items. */
  method AppendShopping(lines: seq<string>, cats: seq<Category>) returns (out: seq<string>)
    ensures out == lines + ShoppingLines(cats)
  {
    out := lines + [Section("SHOPPING LIST")];
    for k := 0 to |cats|
      invariant out == lines + ShoppingLines(cats[..k])
    {
      var catLine := Capitalize(cats[k].name) + ":";
      out := out + [catLine];
      out := AppendBullets(out, cats[k].items);
      ShoppingLinesStep(lines, cats, k);
    }
    assert cats[..|cats|] == cats;
  }

  /** One more category printed extends the shopping listing by its heading and bullets. */
  lemma ShoppingLinesStep(lines: seq<string>, cats: seq<Category>, k: nat)
    requires k < |cats|
    ensures lines + ShoppingLines(cats[..k]) + [Capitalize(cats[k].name) + ":"] + Bullets(cats[k].items)
            == lines + ShoppingLines(cats[..k + 1])
  {
    var heading, bullets := [Capitalize(cats[k].name) + ":"], Bullets(cats[k].items);
    var before := CategoryLines(cats[..k]);
    CategoryLinesAppend(cats[..k], cats[k]);
    assert cats[..k + 1] == cats[..k] + [cats[k]];
    AppendAssoc(lines + ShoppingLines(cats[..k]), heading, bullets);
    AppendAssoc(lines, ShoppingLines(cats[..k]), heading + bullets);
    AppendAssoc([Section("SHOPPING LIST")], before, heading + bullets);
  }

  /** The compliance notes as bullets under their section. */
  method AppendCompliance(lines: seq<string>, notes: seq<string>) returns (out: seq<string>)
    ensures out == lines + ComplianceLines(notes)
  {
    out := lines + [Section("JAIN COMPLIANCE")];
    out := AppendBullets(out, notes);
    AppendAssoc(lines, [Section("JAIN COMPLIANCE")], Bullets(notes));
  }

  /** `format_email(weather, menu)`: the lines above, in order, joined with newlines. */
  method FormatEmail(weather: WeatherRecord, menu: Menu) returns (body: string)
    ensures body == Body(weather, menu)
  {
    var lines: seq<string> := [];
    lines := AppendHeader(lines, weather, menu);
    ghost var l0 := lines;
    lines := AppendCourse(lines, "APPETIZER", menu.appetizer);
    ghost var l1 := lines;
    lines := AppendCourse(lines, "MAIN", menu.main.course);
    ghost var l2 := lines;
    lines := AppendSide(lines, menu.main.side);
    ghost var l3 := lines;
    lines := AppendDessert(lines, menu.dessert);
    ghost var l4 := lines;
    lines := AppendShopping(lines, menu.shoppingList);
    ghost var l5 := lines;
    lines := AppendCompliance(lines, menu.complianceNotes);
    assert l0 == HeaderLines(weather, menu);
    BodyLinesInOrder(weather, menu, l0, l1, l2, l3, l4, l5, lines);
    body := Join(lines, "\n");
  }

  /** Appending the blocks one after another gives the body's lines. */
  lemma BodyLinesInOrder(w: WeatherRecord, menu: Menu,
    l0: seq<string>, l1: seq<string>, l2: seq<string>, l3: seq<string>, l4: seq<string>, l5: seq<string>, l6: seq<string>)
    requires l0 == HeaderLines(w, menu)
    requires l1 == l0 + CourseLines("APPETIZER", menu.appetizer)
    requires l2 == l1 + CourseLines("MAIN", menu.main.course)
    requires l3 == l2 + SideLines(menu.main.side)
    requires l4 == l3 + DessertLines(menu.dessert)
    requires l5 == l4 + ShoppingLines(menu.shoppingList)
    requires l6 == l5 + ComplianceLines(menu.complianceNotes)
    ensures l6 == BodyLines(w, menu)
  {
    var shopping, notes := ShoppingLines(menu.shoppingList), ComplianceLines(menu.complianceNotes);
    var dessert, main := DessertLines(menu.dessert), CourseLines("MAIN", menu.main.course);
    AppendAssoc(l4, shopping, notes);
    AppendAssoc(l3, dessert, shopping + notes);
    AppendAssoc(l2, SideLines(menu.main.side), dessert + (shopping + notes));
    AppendAssoc(l1, main, LinesAfterMain(menu));
    AppendAssoc(l0, CourseLines("APPETIZER", menu.appetizer), main + LinesAfterMain(menu));
  }

  // ---------------------------------------------------------------------------
  // What the body promises
  // ---------------------------------------------------------------------------

  /**
   * Both rules of a section are exactly as long as its title: split on
   * newlines, a section is an empty line, the rule, the title, the rule and
   * an empty line.
   */
  lemma SectionRules(title: string)
    requires '\n' !in title
    ensures Split(Section(title), '\n') == ["", Repeat('=', |title|), title, Repeat('=', |title|), ""]
  {
    RuleHasNoNewline(|title|);
    FramedTitleSplit(Repeat('=', |title|), title);
  }

  /** A title framed by two newline-free rules splits into the five lines of a section. */
  lemma FramedTitleSplit(rule: string, title: string)
    requires '\n' !in rule && '\n' !in title
    ensures Split("\n" + (rule + ("\n" + (title + ("\n" + (rule + "\n"))))), '\n') == ["", rule, title, rule, ""]
  {
    var d := rule + "\n";
    var c := title + ("\n" + d);
    var b := rule + ("\n" + c);
    SplitAtSeparator(rule, "", '\n');
    assert rule + "\n" + "" == d;
    assert Split("", '\n') == [""];
    SplitBeforeNewline(title, d);
    SplitBeforeNewline(rule, c);
    SplitBeforeNewline("", b);
    assert "" + ("\n" + b) == "\n" + b;
  }

  /** A rule of `=` signs holds no newline. */
  lemma RuleHasNoNewline(n: nat)
    ensures '\n' !in Repeat('=', n)
  {
    var rule := Repeat('=', n);
    forall i | 0 <= i < |rule| ensures rule[i] != '\n' {}
  }

  /** `SplitAtSeparator` with the concatenation nested to the right. */
  lemma SplitBeforeNewline(a: string, b: string)
    requires '\n' !in a
    ensures Split(a + ("\n" + b), '\n') == [a] + Split(b, '\n')
  {
    AppendAssoc(a, "\n", b);
    SplitAtSeparator(a, b, '\n');
  }

  /** Where a course's ingredients and steps sit inside its section. */
  lemma CourseLayout(heading: string, c: Course)
    ensures var ls := CourseLines(heading, c);
      var n, m := |c.ingredients|, |c.steps|;
      && |ls| == 4 + n + m
      && ls[0] == Section(heading)
      && ls[2] == "Ingredients:"
      && (forall i | 0 <= i < n :: ls[3 + i] == "- " + c.ingredients[i])
      && ls[3 + n] == "Steps:"
      && (forall i | 0 <= i < m :: ls[4 + n + i] == "- " + c.steps[i])
  {
  }

  /**
   * The appetizer's ingredients follow "Ingredients:" as "- " bullets in
   * input order, and its steps follow "Steps:" the same way; the main
   * course's section comes right after.
   */
  lemma AppetizerListed(w: WeatherRecord, menu: Menu)
    ensures var ls := BodyLines(w, menu);
      var a := menu.appetizer;
      var n, m := |a.ingredients|, |a.steps|;
      && |ls| > 12 + n + m
      && ls[0] == menu.title
      && ls[8] == Section("APPETIZER")
      && ls[10] == "Ingredients:"
      && (forall i | 0 <= i < n :: ls[11 + i] == "- " + a.ingredients[i])
      && ls[11 + n] == "Steps:"
      && (forall i | 0 <= i < m :: ls[12 + n + i] == "- " + a.steps[i])
      && ls[12 + n + m] == Section("MAIN")
  {
    var ls := BodyLines(w, menu);
    var a := menu.appetizer;
    var app := CourseLines("APPETIZER", a);
    var rest := CourseLines("MAIN", menu.main.course) + LinesAfterMain(menu);
    var tail := app + rest;
    CourseLayout("APPETIZER", a);
    CourseLayout("MAIN", menu.main.course);
    assert |HeaderLines(w, menu)| == 8;
    assert forall j | 0 <= j < |tail| :: ls[8 + j] == tail[j];
    assert forall j | 0 <= j < |app| :: tail[j] == app[j];
    assert tail[|app|] == rest[0];
  }

  /** The index at which the side block starts, if there is one. */
  function SideIndex(menu: Menu): nat {
    8 + 4 + |menu.appetizer.ingredients| + |menu.appetizer.steps|
      + 4 + |menu.main.course.ingredients| + |menu.main.course.steps|
  }

  /** The lines before the side block are the header and the first two courses. */
  lemma LinesBeforeSide(w: WeatherRecord, menu: Menu)
    ensures var pre := HeaderLines(w, menu) + CourseLines("APPETIZER", menu.appetizer) + CourseLines("MAIN", menu.main.course);
      && |pre| == SideIndex(menu)
      && BodyLines(w, menu) == pre + LinesAfterMain(menu)
  {
    CourseLayout("APPETIZER", menu.appetizer);
    CourseLayout("MAIN", menu.main.course);
  }

  /**
   * The line "\nSide:" stands where the side block would start exactly when
   * the main course has a side; otherwise the dessert section starts there.
   */
  lemma SideShownIffPresent(w: WeatherRecord, menu: Menu)
    ensures SideIndex(menu) < |BodyLines(w, menu)|
    ensures BodyLines(w, menu)[SideIndex(menu)] == "\nSide:" <==> menu.main.side.Some?
    ensures menu.main.side.None? ==> BodyLines(w, menu)[SideIndex(menu)] == Section("DESSERT")
  {
    LinesBeforeSide(w, menu);
    var after := LinesAfterMain(menu);
    assert BodyLines(w, menu)[SideIndex(menu)] == after[0];
    if menu.main.side.None? {
      assert after[0] == Section("DESSERT");
      assert Section("DESSERT")[1] == Repeat('=', 7)[0] == '=';
      assert "\nSide:"[1] == 'S';
    }
  }

  /** Adding a side to the main course inserts the side block and changes nothing else. */
  lemma SideIsOnlyDifference(w: WeatherRecord, menu: Menu)
    ensures var plain := BodyLines(w, menu.(main := menu.main.(side := None)));
      && SideIndex(menu) <= |plain|
      && BodyLines(w, menu) == plain[..SideIndex(menu)] + SideLines(menu.main.side) + plain[SideIndex(menu)..]
  {
    var noSide := menu.(main := menu.main.(side := None));
    LinesBeforeSide(w, menu);
    LinesBeforeSide(w, noSide);
    var pre := HeaderLines(w, menu) + CourseLines("APPETIZER", menu.appetizer) + CourseLines("MAIN", menu.main.course);
    var post := DessertLines(menu.dessert) + (ShoppingLines(menu.shoppingList) + ComplianceLines(menu.complianceNotes));
    var plain := BodyLines(w, noSide);
    assert HeaderLines(w, noSide) == HeaderLines(w, menu);
    assert LinesAfterMain(noSide) == post;
    assert plain == pre + post;
    assert plain[..|pre|] == pre && plain[|pre|..] == post;
  }
}
