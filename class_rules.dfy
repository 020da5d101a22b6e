/** The class-level context block of the education prompt
    (src/cortex/education/config/classRules.ts). */
module ClassRules {
  import opened Wrappers
  import opened Text
  import opened Classes

  /** The lines of the template for class `name`. */
  function ContextLines(name: string): seq<string> {
    [ "STUDENT CONTEXT:",
      "- Class: " + name,
      "- Subject: General",
      "",
      "STRICT RULES:",
      "- " + ("Do NOT include content above Class " + name) + ".",
      "- If the topic belongs to a higher class, give only a very basic introduction.",
      "- Use examples suitable for a Class " + name + " student." ]
  }

  /** `getClassContext`: nothing without a class; otherwise the trimmed
      template, which opens with `STUDENT CONTEXT:`, names the class, states
      the general subject and forbids content above the class. */
  function GetClassContext(cls: Option<UserClass>): (r: string)
    ensures cls.None? <==> r == ""
    ensures cls.Some? ==>
      && StartsWith(r, "STUDENT CONTEXT:")
      && Contains(r, "- Class: " + Name(cls.value))
      && Contains(r, "- Subject: General")
      && Contains(r, "Do NOT include content above Class " + Name(cls.value))
  {
    match cls
    case None => ""
    case Some(c) =>
      var lines := ContextLines(Name(c));
      var body := Join(lines, "\n");
      ContextBody(Name(c));
      TrimNewlineFramed(body);
      Trim("\n" + body + "\n")
  }

  /** What the joined template lines contain. */
  lemma ContextBody(name: string)
    ensures var body := Join(ContextLines(name), "\n");
      && |body| > 0 && !IsWhitespace(body[0]) && !IsWhitespace(body[|body| - 1])
      && StartsWith(body, "STUDENT CONTEXT:")
      && Contains(body, "- Class: " + name)
      && Contains(body, "- Subject: General")
      && Contains(body, "Do NOT include content above Class " + name)
  {
    var lines := ContextLines(name);
    var body := Join(lines, "\n");
    JoinEnds(lines, "\n");
    assert body[0] == lines[0][0] == 'S';
    var last := lines[|lines| - 1];
    assert body[|body| - 1] == last[|last| - 1] == '.';
    assert OccursAt(lines[1], lines[1], 0);
    OccursInJoin(lines, "\n", 1, lines[1], 0);
    assert OccursAt(lines[2], lines[2], 0);
    OccursInJoin(lines, "\n", 2, lines[2], 0);
    OccursBetween("- ", "Do NOT include content above Class " + name, ".");
    OccursInJoin(lines, "\n", 5, "Do NOT include content above Class " + name, 2);
  }
}
