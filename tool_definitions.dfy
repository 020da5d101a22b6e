/** The tool catalogue of the education mode and which tools each class may
    use (src/cortex/shared/constants/ToolDefinitions.ts). */
module ToolDefinitions {
  import opened Wrappers
  import opened Classes
  import Seqs

  datatype ToolId = Explain | Notes | Practice | Homework | Translate

  datatype ToolDefinition = ToolDefinition(
    id: ToolId,
    name: string,
    icon: string,       // an Ionicons name
    minClass: nat,      // 0 for Nursery and kindergarten
    description: string)

  /** `TOOLS`, in menu order. */
  const TOOLS: seq<ToolDefinition> := [
    ToolDefinition(Explain, "Explain Topic", "bulb-outline", 0, "Get clear explanations for any topic."),
    ToolDefinition(Notes, "Short Notes", "document-text-outline", 3, "Summarize topics into bullet points."),
    ToolDefinition(Practice, "Practice Questions", "help-circle-outline", 3, "Test your knowledge with questions."),
    ToolDefinition(Homework, "Homework Helper", "library-outline", 9, "Get hints and steps (no direct answers)."),
    ToolDefinition(Translate, "Simplify / Translate", "language-outline", 0, "Translate text or make it simpler.")
  ]

  /** `CLASS_MAP`: Nursery, LKG and UKG rank 0, class n ranks n. */
  function ClassRank(c: UserClass): (r: nat)
    ensures r <= 10
    ensures r == 0 <==> !c.Grade?
  {
    match c
    case Grade(n) => n
    case _ => 0
  }

  /** The lowest class rank a tool is meant for, tool by tool. */
  function MinClassOf(id: ToolId): nat {
    match id
    case Explain => 0
    case Notes => 3
    case Practice => 3
    case Homework => 9
    case Translate => 0
  }

  /** Every tool has exactly one entry, at a fixed position, carrying its
      minimum class. */
  lemma CatalogueComplete(id: ToolId)
    ensures exists i :: (0 <= i < |TOOLS| && TOOLS[i].id == id && TOOLS[i].minClass == MinClassOf(id)
      && forall j :: 0 <= j < |TOOLS| && TOOLS[j].id == id ==> j == i)
  {
    var i := match id case Explain => 0 case Notes => 1 case Practice => 2 case Homework => 3 case Translate => 4;
    assert TOOLS[i].id == id;
  }

  /** `isToolAvailable`: never without a class; otherwise exactly when the
      class's rank reaches the tool's minimum class. */
  function IsToolAvailable(toolId: ToolId, userClass: Option<UserClass>): (r: bool)
    ensures userClass.None? ==> !r
    ensures userClass.Some? ==> (r <==> ClassRank(userClass.value) >= MinClassOf(toolId))
  {
    if userClass.None? then false
    else
      var tool := Seqs.Find(TOOLS, (t: ToolDefinition) => t.id == toolId);
      CatalogueComplete(toolId);
      match tool
      case None => false
      case Some(t) =>
        assert t.minClass == MinClassOf(toolId);
        ClassRank(userClass.value) >= t.minClass
  }

  /** `getAvailableTools`: no tools without a class; otherwise the
      catalogue entries the class's rank reaches, in catalogue order. */
  function GetAvailableTools(userClass: Option<UserClass>): (r: seq<ToolDefinition>)
    ensures userClass.None? ==> r == []
    ensures forall t :: t in r <==> t in TOOLS && IsToolAvailable(t.id, userClass)
  {
    if userClass.None? then []
    else
      var rank := ClassRank(userClass.value);
      forall i | 0 <= i < |TOOLS| ensures TOOLS[i].minClass == MinClassOf(TOOLS[i].id) {
      }
      Seqs.Filter(TOOLS, Reaches(rank))
  }

  /** The available tools keep catalogue order, each listed once. */
  lemma AvailableToolsInOrder(userClass: Option<UserClass>)
    ensures var r := GetAvailableTools(userClass);
      forall i, j :: 0 <= i < j < |r| ==> Position(r[i].id) < Position(r[j].id)
  {
    if userClass.Some? {
      var p := Reaches(ClassRank(userClass.value));
      assert GetAvailableTools(userClass) == Seqs.Filter(TOOLS, p);
      FilteredCatalogueInOrder(p);
    }
  }

  /** Any filter of the catalogue keeps catalogue order. */
  lemma FilteredCatalogueInOrder(p: ToolDefinition -> bool)
    ensures var r := Seqs.Filter(TOOLS, p);
      forall i, j :: 0 <= i < j < |r| ==> Position(r[i].id) < Position(r[j].id)
  {
    CatalogueInOrder();
    Seqs.FilterRanked(TOOLS, p, PositionOf);
  }

  /** Where a tool sits in the catalogue. */
  function Position(id: ToolId): nat {
    match id case Explain => 0 case Notes => 1 case Practice => 2 case Homework => 3 case Translate => 4
  }

  function PositionOf(t: ToolDefinition): int { Position(t.id) }

  /** The catalogue lists every tool at its own position. */
  lemma CatalogueInOrder()
    ensures forall i :: 0 <= i < |TOOLS| ==> Position(TOOLS[i].id) == i
    ensures forall i, j :: 0 <= i < j < |TOOLS| ==> PositionOf(TOOLS[i]) < PositionOf(TOOLS[j])
  {
  }

  /** The test `classNum >= t.minClass` for one class rank. */
  function Reaches(rank: nat): ToolDefinition -> bool {
    (t: ToolDefinition) => rank >= t.minClass
  }

  /** A class never loses a tool that a lower-ranked class has. */
  lemma AvailableToolsMonotone(a: UserClass, b: UserClass, t: ToolDefinition)
    requires ClassRank(a) <= ClassRank(b)
    requires t in GetAvailableTools(Some(a))
    ensures t in GetAvailableTools(Some(b))
  {
  }

  /** Nursery, LKG and UKG get exactly Explain and Translate, in that order. */
  lemma PreschoolTools(c: UserClass)
    requires !c.Grade?
    ensures GetAvailableTools(Some(c)) == [TOOLS[0], TOOLS[4]]
  {
    var p := Reaches(0);
    assert GetAvailableTools(Some(c)) == Seqs.Filter(TOOLS, p);
    assert p(TOOLS[0]) && !p(TOOLS[1]) && !p(TOOLS[2]) && !p(TOOLS[3]) && p(TOOLS[4]);
    FirstAndLastOfFive(TOOLS, p);
  }

  lemma FirstAndLastOfFive<T>(s: seq<T>, p: T -> bool)
    requires |s| == 5 && p(s[0]) && !p(s[1]) && !p(s[2]) && !p(s[3]) && p(s[4])
    ensures Seqs.Filter(s, p) == [s[0], s[4]]
  {
    assert s[1..][1..][1..][1..][1..] == [];
    assert Seqs.Filter(s[1..][1..][1..][1..], p) == [s[4]];
    assert Seqs.Filter(s[1..][1..][1..], p) == [s[4]];
    assert Seqs.Filter(s[1..][1..], p) == [s[4]];
    assert Seqs.Filter(s[1..], p) == [s[4]];
  }

  /** Classes 9 and 10 get every tool, in catalogue order. */
  lemma SeniorTools(c: UserClass)
    requires c.Grade? && c.n >= 9
    ensures GetAvailableTools(Some(c)) == TOOLS
  {
    Seqs.FilterAll(TOOLS, Reaches(c.n));
  }
}
