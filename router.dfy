/** The router variant: one classification of the question into a closed set
    of six sources, one call of that source's tool, one answer. */
module Router {
  import opened Wrappers
  import opened Tools

  /** The six `datasource` labels of `RouteQuery`. */
  datatype Route = LanggraphDocs | PdfWhitepaper | PersonalInfo | Wikipedia | Arxiv | WebSearch

  function Label(r: Route): string {
    match r
    case LanggraphDocs => "langgraph_docs"
    case PdfWhitepaper => "pdf_whitepaper"
    case PersonalInfo => "personal_info"
    case Wikipedia => "wikipedia"
    case Arxiv => "arxiv"
    case WebSearch => "web_search"
  }

  /** The route at each position of the order in which `_initialize_tools`
      lists the sources. */
  function RouteAt(k: nat): Route
    requires k < 6
  {
    if k == 0 then LanggraphDocs
    else if k == 1 then PdfWhitepaper
    else if k == 2 then PersonalInfo
    else if k == 3 then Wikipedia
    else if k == 4 then Arxiv
    else WebSearch
  }

  /** The position of each route in that order. */
  function Index(r: Route): (k: nat)
    ensures k < 6 && RouteAt(k) == r
  {
    match r
    case LanggraphDocs => 0
    case PdfWhitepaper => 1
    case PersonalInfo => 2
    case Wikipedia => 3
    case Arxiv => 4
    case WebSearch => 5
  }

  /** Validation of a `datasource` string against the `Literal` type. */
  function ParseRoute(s: string): (r: Option<Route>)
    ensures r.Some? ==> Label(r.value) == s
    ensures r.None? ==> forall rt :: Label(rt) != s
  {
    if s == "langgraph_docs" then Some(LanggraphDocs)
    else if s == "pdf_whitepaper" then Some(PdfWhitepaper)
    else if s == "personal_info" then Some(PersonalInfo)
    else if s == "wikipedia" then Some(Wikipedia)
    else if s == "arxiv" then Some(Arxiv)
    else if s == "web_search" then Some(WebSearch)
    else None
  }

  /** Every route's label validates back to that route; so labels are distinct. */
  lemma ParseLabel(r: Route)
    ensures ParseRoute(Label(r)) == Some(r)
  {
    match r
    case LanggraphDocs =>
    case PdfWhitepaper => assert Label(r)[0] == 'p';
    case PersonalInfo => assert Label(r)[1] == 'e';
    case Wikipedia => assert Label(r)[0] == 'w' && Label(r)[1] == 'i';
    case Arxiv => assert Label(r)[0] == 'a';
    case WebSearch => assert Label(r)[1] == 'e';
  }

  lemma LabelInjective(a: Route, b: Route)
    ensures Label(a) == Label(b) <==> a == b
  {
    ParseLabel(a);
    ParseLabel(b);
  }

  /** The tool registry: a dict keeps insertion order, so it is a list of
      (source, tool) entries. */
  type Registry = seq<(Route, ToolAdapter)>

  function Keys(reg: Registry): (keys: seq<Route>)
    ensures |keys| == |reg| && forall i :: 0 <= i < |reg| ==> keys[i] == reg[i].0
  {
    if reg == [] then [] else [reg[0].0] + Keys(reg[1..])
  }

  /** The dict `_initialize_tools` starts from: every source with what its
      factory produced, in the declared order. */
  function AllTools(built: Route -> Option<ToolAdapter>): (entries: seq<(Route, Option<ToolAdapter>)>)
    ensures |entries| == 6
    ensures forall j :: 0 <= j < |entries| ==> Index(entries[j].0) == j && entries[j].1 == built(entries[j].0)
  {
    [(LanggraphDocs, built(LanggraphDocs)), (PdfWhitepaper, built(PdfWhitepaper)),
     (PersonalInfo, built(PersonalInfo)), (Wikipedia, built(Wikipedia)),
     (Arxiv, built(Arxiv)), (WebSearch, built(WebSearch))]
  }

  /** The comprehension that drops the entries whose value is `None`. */
  function KeepBuilt(entries: seq<(Route, Option<ToolAdapter>)>): (reg: Registry)
    ensures |reg| <= |entries|
  {
    if entries == [] then []
    else
      var rest := KeepBuilt(entries[1..]);
      match entries[0].1
      case Some(t) => [(entries[0].0, t)] + rest
      case None => rest
  }

  /** One step of the comprehension: a kept first entry is followed by what
      the rest keeps. */
  lemma KeepBuiltCons(entries: seq<(Route, Option<ToolAdapter>)>)
    requires entries != []
    ensures var reg := KeepBuilt(entries);
            var rest := KeepBuilt(entries[1..]);
            if entries[0].1.Some?
            then |reg| == |rest| + 1 && reg[0] == (entries[0].0, entries[0].1.value)
                 && forall i :: 0 < i < |reg| ==> reg[i] == rest[i - 1]
            else reg == rest
  {
  }

  /** Every kept entry holds the tool its source was built with. */
  lemma {:induction false} KeepBuiltEntries(built: Route -> Option<ToolAdapter>, entries: seq<(Route, Option<ToolAdapter>)>)
    requires forall j :: 0 <= j < |entries| ==> entries[j].1 == built(entries[j].0)
    ensures var reg := KeepBuilt(entries);
            forall i :: 0 <= i < |reg| ==> built(reg[i].0) == Some(reg[i].1)
    decreases |entries|
  {
    if entries != [] {
      var rest := entries[1..];
      assert forall j :: 0 <= j < |rest| ==> rest[j] == entries[j + 1];
      KeepBuiltEntries(built, rest);
      KeepBuiltCons(entries);
    }
  }

  /** Every entry with a value is kept. */
  lemma {:induction false} KeepBuiltComplete(entries: seq<(Route, Option<ToolAdapter>)>)
    ensures forall j :: 0 <= j < |entries| && entries[j].1.Some? ==> entries[j].0 in Keys(KeepBuilt(entries))
    decreases |entries|
  {
    if entries != [] {
      var rest := entries[1..];
      assert forall j :: 0 < j < |entries| ==> entries[j] == rest[j - 1];
      KeepBuiltComplete(rest);
      if entries[0].1.Some? {
        var reg := [(entries[0].0, entries[0].1.value)] + KeepBuilt(rest);
        assert reg[1..] == KeepBuilt(rest);
      }
    }
  }

  /** The kept entries stay in the order of the input, and above any bound the
      input keeps. */
  lemma {:induction false} KeepBuiltOrdered(entries: seq<(Route, Option<ToolAdapter>)>, lo: int)
    requires forall j :: 0 <= j < |entries| ==> lo <= Index(entries[j].0)
    requires forall i, j :: 0 <= i < j < |entries| ==> Index(entries[i].0) < Index(entries[j].0)
    ensures var reg := KeepBuilt(entries);
            && (forall i :: 0 <= i < |reg| ==> lo <= Index(reg[i].0))
            && (forall i, j :: 0 <= i < j < |reg| ==> Index(reg[i].0) < Index(reg[j].0))
    decreases |entries|
  {
    if entries != [] {
      var rest := entries[1..];
      assert forall j :: 0 <= j < |rest| ==> rest[j] == entries[j + 1];
      KeepBuiltOrdered(rest, Index(entries[0].0) + 1);
      KeepBuiltCons(entries);
    }
  }

  /** `_initialize_tools`: the sources whose tool was built, each with its
      tool, in the declared order. */
  function InitializeTools(built: Route -> Option<ToolAdapter>): (reg: Registry)
    ensures forall rt :: rt in Keys(reg) <==> built(rt).Some?
    ensures forall i :: 0 <= i < |reg| ==> built(reg[i].0) == Some(reg[i].1)
    ensures forall i, j :: 0 <= i < j < |reg| ==> Index(reg[i].0) < Index(reg[j].0)
  {
    RegistryFacts(built);
    KeepBuilt(AllTools(built))
  }

  lemma RegistryFacts(built: Route -> Option<ToolAdapter>)
    ensures var reg := KeepBuilt(AllTools(built));
            && (forall rt :: rt in Keys(reg) <==> built(rt).Some?)
            && (forall i :: 0 <= i < |reg| ==> built(reg[i].0) == Some(reg[i].1))
            && (forall i, j :: 0 <= i < j < |reg| ==> Index(reg[i].0) < Index(reg[j].0))
  {
    var entries := AllTools(built);
    KeepBuiltEntries(built, entries);
    KeepBuiltComplete(entries);
    KeepBuiltOrdered(entries, 0);
    AllToolsCover(built);
  }

  /** Each source sits at its own position of the starting dict. */
  lemma AllToolsCover(built: Route -> Option<ToolAdapter>)
    ensures forall rt :: AllTools(built)[Index(rt)] == (rt, built(rt))
  {
    var entries := AllTools(built);
    forall rt ensures entries[Index(rt)] == (rt, built(rt)) {
      var e := entries[Index(rt)];
      assert RouteAt(Index(e.0)) == e.0;
    }
  }

  /** `self.tools.get(name)`. */
  function Lookup(reg: Registry, name: string): (t: Option<ToolAdapter>)
    ensures t.None? <==> forall i :: 0 <= i < |reg| ==> Label(reg[i].0) != name
    ensures t.Some? ==> exists i :: 0 <= i < |reg| && Label(reg[i].0) == name && reg[i].1 == t.value
  {
    if reg == [] then None
    else if Label(reg[0].0) == name then Some(reg[0].1)
    else Lookup(reg[1..], name)
  }

  /** Looking a route's label up in the built registry finds that route's
      factory result. */
  lemma LookupBuilt(built: Route -> Option<ToolAdapter>, rt: Route)
    ensures Lookup(InitializeTools(built), Label(rt)) == built(rt)
  {
    var reg := InitializeTools(built);
    var t := Lookup(reg, Label(rt));
    if t.Some? {
      var i :| 0 <= i < |reg| && Label(reg[i].0) == Label(rt) && reg[i].1 == t.value;
      LabelInjective(reg[i].0, rt);
    }
  }

  /** The labels of a registry's keys, in order. */
  function Names(reg: Registry): (names: seq<string>)
    ensures |names| == |reg| && forall i :: 0 <= i < |reg| ==> names[i] == Label(reg[i].0)
  {
    if reg == [] then [] else [Label(reg[0].0)] + Names(reg[1..])
  }

  /** A label is among the built registry's names exactly when that source's
      tool was built. */
  lemma NamesOfBuilt(built: Route -> Option<ToolAdapter>, rt: Route)
    ensures Label(rt) in Names(InitializeTools(built)) <==> built(rt).Some?
  {
    var reg := InitializeTools(built);
    var names := Names(reg);
    if Label(rt) in names {
      var i :| 0 <= i < |names| && names[i] == Label(rt);
      LabelInjective(reg[i].0, rt);
    }
    if built(rt).Some? {
      assert rt in Keys(reg);
      var i :| 0 <= i < |reg| && Keys(reg)[i] == rt;
      assert names[i] == Label(rt);
    }
  }

  /** What the built registry's names are: the labels of the built sources,
      each a valid `datasource`, each once. */
  lemma AvailableNames(built: Route -> Option<ToolAdapter>)
    ensures var names := Names(InitializeTools(built));
            && (forall rt :: Label(rt) in names <==> built(rt).Some?)
            && (forall i :: 0 <= i < |names| ==> ParseRoute(names[i]).Some?)
            && (forall i, j :: 0 <= i < j < |names| ==> names[i] != names[j])
  {
    var reg := InitializeTools(built);
    forall rt ensures Label(rt) in Names(reg) <==> built(rt).Some? {
      NamesOfBuilt(built, rt);
    }
    forall i | 0 <= i < |reg| ensures ParseRoute(Label(reg[i].0)).Some? {
      ParseLabel(reg[i].0);
    }
    NamesDistinct(built);
  }

  /** The built registry's names are distinct labels. */
  lemma NamesDistinct(built: Route -> Option<ToolAdapter>)
    ensures var names := Names(InitializeTools(built));
            forall i, j :: 0 <= i < j < |names| ==> names[i] != names[j]
  {
    var reg := InitializeTools(built);
    forall i, j | 0 <= i < j < |reg| ensures Label(reg[i].0) != Label(reg[j].0) {
      LabelInjective(reg[i].0, reg[j].0);
    }
  }

  /** Text returned when the routed source has no tool. */
  function NotAvailable(name: string): string {
    "Tool '" + name + "' not available"
  }

  const ToolErrorPrefix := "Error executing tool: "
  const AnswerErrorPrefix := "Error generating answer: "

  /** The `context` field: at most 500 characters of the tool output, with
      "..." appended when something was cut. */
  function Truncate(s: string): (r: string)
    ensures |r| <= 503
    ensures |s| <= 500 ==> r == s
    ensures |s| > 500 ==> |r| == 503 && r[..500] == s[..500] && r[500..] == "..."
  {
    if |s| > 500 then s[..500] + "..." else s
  }

  datatype QueryResult = QueryResult(answer: string, route: string, context: string)

  class RouterAgent {
    /** The answer chain (prompt, model, string parser) on question and context. */
    const llm: (string, string) -> Result<string, string>
    const tools: Registry
    /** The structured-output routing chain: its validated `datasource`. */
    const router: string -> Route
    /** What each factory produced. */
    ghost const built: Route -> Option<ToolAdapter>

    ghost predicate Valid() {
      tools == InitializeTools(built)
    }

    constructor (built: Route -> Option<ToolAdapter>, router: string -> Route,
                 llm: (string, string) -> Result<string, string>)
      ensures Valid() && this.built == built && this.router == router && this.llm == llm
    {
      this.llm := llm;
      this.tools := InitializeTools(built);
      this.router := router;
      this.built := built;
    }

    /** `_execute_tool`: a missing tool gives the "not available" text and
        nothing is invoked; otherwise the tool runs once on the query, and an
        exception becomes the "Error executing tool" text. */
    function ExecuteTool(toolName: string, query: string): (text: string)
      ensures Lookup(tools, toolName).None? ==> text == NotAvailable(toolName)
      ensures Lookup(tools, toolName).Some? ==>
                match Lookup(tools, toolName).value.invoke(query)
                case Ok(result) => text == result
                case Err(e) => text == ToolErrorPrefix + e
    {
      match Lookup(tools, toolName)
      case None => NotAvailable(toolName)
      case Some(tool) =>
        match tool.invoke(query)
        case Ok(result) => result
        case Err(e) => ToolErrorPrefix + e
    }

    /** `_generate_answer`: the chain's answer, or its failure as text. */
    function GenerateAnswer(question: string, context: string): (answer: string)
      ensures match llm(question, context)
              case Ok(a) => answer == a
              case Err(e) => answer == AnswerErrorPrefix + e
    {
      match llm(question, context)
      case Ok(a) => a
      case Err(e) => AnswerErrorPrefix + e
    }

    /** `query`: the route is the router's choice, always one of the six
        labels; the answer is generated from the full tool output, and only
        the reported context is truncated. */
    function Query(question: string): (r: QueryResult)
      requires Valid()
      ensures ParseRoute(r.route) == Some(router(question))
      ensures r.context == Truncate(ExecuteTool(r.route, question)) && |r.context| <= 503
      ensures r.answer == GenerateAnswer(question, ExecuteTool(r.route, question))
    {
      var selected := Label(router(question));
      ParseLabel(router(question));
      var context := ExecuteTool(selected, question);
      var answer := GenerateAnswer(question, context);
      QueryResult(answer, selected, Truncate(context))
    }

    /** `get_available_routes`: the keys of the registry, which are exactly
        the labels of the sources whose tool was built, each once, in order. */
    function GetAvailableRoutes(): (names: seq<string>)
      requires Valid()
      ensures |names| == |tools| && forall i :: 0 <= i < |tools| ==> names[i] == Label(tools[i].0)
      ensures forall rt :: Label(rt) in names <==> built(rt).Some?
      ensures forall i :: 0 <= i < |names| ==> ParseRoute(names[i]).Some?
      ensures forall i, j :: 0 <= i < j < |names| ==> names[i] != names[j]
    {
      AvailableNames(built);
      Names(tools)
    }
  }

  /** The routed tool is the only one that matters: two agents with the same
      router, answer chain and the same tool for the chosen route give the
      same result, whatever their other tools are. */
  lemma OnlyRoutedToolUsed(a: RouterAgent, b: RouterAgent, question: string)
    requires a.Valid() && b.Valid()
    requires a.router == b.router && a.llm == b.llm
    requires a.built(a.router(question)) == b.built(b.router(question))
    ensures a.Query(question) == b.Query(question)
  {
    LookupBuilt(a.built, a.router(question));
    LookupBuilt(b.built, b.router(question));
  }
}
