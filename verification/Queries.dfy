// internal/dependency: the v0 query parsers and the printers of their IDs, which are the keys
// under which the store caches results.

module Querying {
  import opened Storing
  import opened Strings
  import opened Grammars

  datatype Query =
    | HealthService(connect: bool, tag: string, name: string, dc: string, near: string,
                    statuses: seq<string>, passingOnly: bool)
    | CatalogService(tag: string, name: string, dc: string, near: string)
    | CatalogNode(name: string, dc: string)
    | CatalogNodes(dc: string, near: string)

  datatype Result<+T> = Ok(value: T) | InvalidFormat | InvalidFilter(filter: string)

  // --- the status filters of health.service ---

  predicate Status(f: string) {
    f == "any" || f == "passing" || f == "warning" || f == "critical" || f == "maintenance"
  }

  /** The parts that are not blank. */
  function NonBlank(parts: seq<string>): seq<string> {
    if parts == [] then []
    else if parts[0] == "" then NonBlank(parts[1..])
    else [parts[0]] + NonBlank(parts[1..])
  }

  /** The first part that is neither blank nor a status. */
  function FirstInvalid(parts: seq<string>): Option<string> {
    if parts == [] then None
    else if parts[0] != "" && !Status(parts[0]) then Some(parts[0])
    else FirstInvalid(parts[1..])
  }

  function Statuses(filter: string): Result<seq<string>> {
    if filter == "" then Ok(["passing"])
    else
      var parts := Split(filter, ',');
      match FirstInvalid(parts)
      case Some(f) => InvalidFilter(f)
      case None => Ok(Sort(NonBlank(parts)))
  }

  lemma {:induction false} NonBlankMember(parts: seq<string>, f: string)
    ensures f in NonBlank(parts) <==> f in parts && f != ""
  {
    if parts != [] {
      assert parts == [parts[0]] + parts[1..];
      NonBlankMember(parts[1..], f);
    }
  }

  lemma {:induction false} FirstInvalidIff(parts: seq<string>)
    ensures FirstInvalid(parts).None? <==> forall f :: f in parts ==> f == "" || Status(f)
    ensures FirstInvalid(parts).Some? ==>
              var f := FirstInvalid(parts).value; f in parts && f != "" && !Status(f)
  {
    if parts != [] {
      assert parts == [parts[0]] + parts[1..];
      FirstInvalidIff(parts[1..]);
    }
  }

  lemma {:induction false} FirstInvalidAppend(parts: seq<string>, f: string)
    ensures FirstInvalid(parts + [f]) ==
            if FirstInvalid(parts).Some? then FirstInvalid(parts)
            else if f != "" && !Status(f) then Some(f) else None
    ensures NonBlank(parts + [f]) == NonBlank(parts) + if f == "" then [] else [f]
  {
    if parts != [] {
      assert (parts + [f])[1..] == parts[1..] + [f];
      FirstInvalidAppend(parts[1..], f);
    }
  }

  lemma {:induction false} FirstInvalidStays(parts: seq<string>, i: nat)
    requires i <= |parts| && FirstInvalid(parts[..i]).Some?
    ensures FirstInvalid(parts) == FirstInvalid(parts[..i])
    decreases |parts| - i
  {
    if i < |parts| {
      assert parts[..i + 1] == parts[..i] + [parts[i]];
      FirstInvalidAppend(parts[..i], parts[i]);
      FirstInvalidStays(parts, i + 1);
    } else {
      assert parts[..i] == parts;
    }
  }

  /** The loop over the parts of the filter text. */
  method ReadFilter(filter: string) returns (r: Result<seq<string>>)
    ensures r == Statuses(filter)
  {
    if filter == "" {
      return Ok(["passing"]);
    }
    var split := Split(filter, ',');
    var filters: seq<string> := [];
    for i := 0 to |split|
      invariant FirstInvalid(split[..i]).None?
      invariant filters == NonBlank(split[..i])
    {
      assert split[..i + 1] == split[..i] + [split[i]];
      FirstInvalidAppend(split[..i], split[i]);
      var f := split[i];
      if Status(f) {
        filters := filters + [f];
      } else if f != "" {
        FirstInvalidStays(split, i + 1);
        return InvalidFilter(f);
      }
    }
    assert split[..|split|] == split;
    r := Ok(Sort(filters));
  }

  // --- the parsers ---

  function NewHealthService(s: string, connect: bool): Result<Query> {
    match Match(HealthServiceRe, s)
    case None => InvalidFormat
    case Some(g) =>
      match Statuses(g.filter)
      case InvalidFilter(f) => InvalidFilter(f)
      case InvalidFormat => InvalidFormat
      case Ok(filters) =>
        Ok(HealthService(connect, g.tag, g.name, g.dc, g.near, filters, filters == ["passing"]))
  }

  function NewCatalogService(s: string): Result<Query> {
    match Match(CatalogServiceRe, s)
    case None => InvalidFormat
    case Some(g) => Ok(CatalogService(g.tag, g.name, g.dc, g.near))
  }

  /** The empty text names the node of the local agent. */
  function NewCatalogNode(s: string): Result<Query> {
    if s == "" then Ok(CatalogNode("", ""))
    else
      match Match(CatalogNodeRe, s)
      case None => InvalidFormat
      case Some(g) => Ok(CatalogNode(g.name, g.dc))
  }

  function NewCatalogNodes(s: string): Result<Query> {
    match Match(CatalogNodesRe, s)
    case None => InvalidFormat
    case Some(g) => Ok(CatalogNodes(g.dc, g.near))
  }

  /** The parser that produced a query, applied to another text. */
  function Reparse(q: Query, s: string): Result<Query> {
    match q
    case HealthService(connect, _, _, _, _, _, _) => NewHealthService(s, connect)
    case CatalogService(_, _, _, _) => NewCatalogService(s)
    case CatalogNode(_, _) => NewCatalogNode(s)
    case CatalogNodes(_, _) => NewCatalogNodes(s)
  }

  /** Some parser returns the query. */
  ghost predicate Accepted(q: Query) {
    exists s :: Reparse(q, s) == Ok(q)
  }

  // --- the printers ---

  /** What stands between the parentheses of an ID. */
  function Inner(q: Query): string {
    match q
    case HealthService(_, tag, name, dc, near, statuses, _) =>
      Tagged(tag, name) + Suffix('@', dc) + Suffix('~', near) +
      (if statuses == [] then "" else "|" + Join(statuses, ','))
    case CatalogService(tag, name, dc, near) =>
      Tagged(tag, name) + Suffix('@', dc) + Suffix('~', near)
    case CatalogNode(name, dc) => name + Suffix('@', dc)
    case CatalogNodes(dc, near) => Suffix('@', dc) + Suffix('~', near)
  }

  function ID(q: Query): Id {
    match q
    case HealthService(_, _, _, _, _, _, _) => "health.service(" + Inner(q) + ")"
    case CatalogService(_, _, _, _) => "catalog.service(" + Inner(q) + ")"
    case CatalogNode(_, _) => if Inner(q) == "" then "catalog.node" else "catalog.node(" + Inner(q) + ")"
    case CatalogNodes(_, _) => if Inner(q) == "" then "catalog.nodes" else "catalog.nodes(" + Inner(q) + ")"
  }

  // --- a query as groups of its expression ---

  function KindOf(q: Query): Kind {
    match q
    case HealthService(_, _, _, _, _, _, _) => HealthServiceRe
    case CatalogService(_, _, _, _) => CatalogServiceRe
    case CatalogNode(_, _) => CatalogNodeRe
    case CatalogNodes(_, _) => CatalogNodesRe
  }

  function GroupsOf(q: Query): Groups {
    match q
    case HealthService(_, tag, name, dc, near, statuses, _) => Groups(tag, name, dc, near, Join(statuses, ','))
    case CatalogService(tag, name, dc, near) => Groups(tag, name, dc, near, "")
    case CatalogNode(name, dc) => Groups("", name, dc, "", "")
    case CatalogNodes(dc, near) => Groups("", "", dc, near, "")
  }

  /** A list of statuses as the parser leaves it. */
  ghost predicate StatusList(statuses: seq<string>) {
    Sorted(statuses) && forall f :: f in statuses ==> Status(f)
  }

  lemma StatusesList(filter: string)
    requires Statuses(filter).Ok?
    ensures StatusList(Statuses(filter).value)
  {
    if filter != "" {
      var parts := Split(filter, ',');
      var kept := NonBlank(parts);
      FirstInvalidIff(parts);
      SortSorts(kept);
      forall f | f in Sort(kept) ensures Status(f) {
        assert f in multiset(Sort(kept));
        assert f in multiset(kept);
        NonBlankMember(parts, f);
      }
    }
  }

  lemma {:induction false} JoinedStatuses(statuses: seq<string>)
    requires forall f :: f in statuses ==> Status(f)
    ensures forall c :: c in Join(statuses, ',') ==> FilterChar(c)
    ensures Join(statuses, ',') == "" <==> statuses == []
  {
    if |statuses| > 1 {
      JoinedStatuses(statuses[1..]);
    }
    if statuses != [] {
      StatusChars(statuses[0]);
    }
  }

  lemma StatusChars(f: string)
    requires Status(f)
    ensures f != "" && ',' !in f && forall c :: c in f ==> Word(c)
  {
  }

  lemma {:induction false} AllNonBlank(parts: seq<string>)
    requires forall f :: f in parts ==> Status(f)
    ensures NonBlank(parts) == parts && FirstInvalid(parts).None?
  {
    if parts != [] {
      assert parts == [parts[0]] + parts[1..];
      assert parts[0] in parts;
      AllNonBlank(parts[1..]);
    }
  }

  /** A filter of one word is accepted exactly if it is one of the five, and is then just that word. */
  lemma OneWordFilter(f: string)
    requires f != "" && ',' !in f
    ensures Statuses(f) ==
            if f in {"any", "passing", "warning", "critical", "maintenance"} then Ok([f]) else InvalidFilter(f)
  {
    SplitParts(f, ',');
    var parts := Split(f, ',');
    assert parts == [f] && parts[1..] == [];
    assert [f][1..] == [];
    assert NonBlank([f]) == [f];
    SortedSingle(f);
  }

  lemma SortedSingle(f: string)
    ensures Sort([f]) == [f]
  {
    SortIdempotent([f]);
  }

  /** Printing a nonempty list of statuses and reading it again gives the list. */
  lemma StatusesRoundTrip(statuses: seq<string>)
    requires StatusList(statuses) && statuses != []
    ensures Statuses(Join(statuses, ',')) == Ok(statuses)
  {
    JoinedStatuses(statuses);
    forall i | 0 <= i < |statuses| ensures ',' !in statuses[i] {
      assert statuses[i] in statuses;
      StatusChars(statuses[i]);
    }
    SplitJoin(statuses, ',');
    AllNonBlank(statuses);
    SortIdempotent(statuses);
  }

  lemma InnerIsText(q: Query)
    requires q.HealthService? ==> forall f :: f in q.statuses ==> Status(f)
    ensures Inner(q) == Text(GroupsOf(q))
  {
    match q
    case HealthService(_, tag, name, dc, near, statuses, _) =>
      JoinedStatuses(statuses);
    case CatalogService(tag, name, dc, near) =>
      assert Inner(q) + "" == Inner(q);
    case CatalogNode(name, dc) =>
      assert Inner(q) + "" == Inner(q);
    case CatalogNodes(dc, near) =>
      assert "" + Suffix('@', dc) == Suffix('@', dc);
      assert Inner(q) + "" == Inner(q);
  }

  /** What an accepted query owes to the text it was read from. */
  lemma ReadFrom(q: Query, s: string)
    requires Reparse(q, s) == Ok(q) && q != CatalogNode("", "")
    ensures Match(KindOf(q), s).Some?
    ensures var g := Match(KindOf(q), s).value;
            if q.HealthService? then
              GroupsOf(q) == g.(filter := Join(q.statuses, ',')) && Statuses(g.filter) == Ok(q.statuses) &&
              q.passingOnly == (q.statuses == ["passing"])
            else GroupsOf(q) == g
  {
    MatchIff(KindOf(q), s);
  }

  /** What every accepted query satisfies. */
  lemma {:induction false} AcceptedShape(q: Query)
    requires Accepted(q)
    ensures WellFormed(KindOf(q), GroupsOf(q)) || q == CatalogNode("", "")
    ensures Inner(q) == Text(GroupsOf(q))
    ensures q.HealthService? ==> StatusList(q.statuses) && q.passingOnly == (q.statuses == ["passing"])
  {
    if q != CatalogNode("", "") {
      var s :| Reparse(q, s) == Ok(q);
      ReadFrom(q, s);
      MatchIff(KindOf(q), s);
      if q.HealthService? {
        StatusesList(Match(HealthServiceRe, s).value.filter);
        JoinedStatuses(q.statuses);
      }
    }
    InnerIsText(q);
  }

  /** Reading the text inside an ID gives the query back, unless it is a health query whose
      filter named no status at all. */
  lemma ReparseIff(q: Query)
    requires Accepted(q)
    ensures Reparse(q, Inner(q)) == Ok(q) <==> !(q.HealthService? && q.statuses == [])
  {
    AcceptedShape(q);
    if q != CatalogNode("", "") {
      MatchIsTheMatch(KindOf(q), Inner(q), GroupsOf(q));
      if q.HealthService? {
        JoinedStatuses(q.statuses);
        if q.statuses != [] {
          StatusesRoundTrip(q.statuses);
        }
      }
    }
  }

  lemma InnerQuotes(q: Query, s: string)
    requires !q.HealthService? && Reparse(q, s) == Ok(q)
    ensures Inner(q) == s
  {
    if s == "" && q.CatalogNode? {
      assert q == CatalogNode("", "");
    } else if q == CatalogNode("", "") {
      MatchIff(CatalogNodeRe, s);
      assert false;
    } else {
      ReadFrom(q, s);
      MatchIff(KindOf(q), s);
      InnerIsText(q);
    }
  }

  /** The ID of a catalog query quotes the text it was read from. */
  lemma CatalogIdQuotes(q: Query, s: string)
    requires !q.HealthService? && Reparse(q, s) == Ok(q)
    ensures Inner(q) == s
    ensures ID(q) == match q
      case CatalogService(_, _, _, _) => "catalog.service(" + s + ")"
      case CatalogNode(_, _) => if s == "" then "catalog.node" else "catalog.node(" + s + ")"
      case CatalogNodes(_, _) => if s == "" then "catalog.nodes" else "catalog.nodes(" + s + ")"
  {
    InnerQuotes(q, s);
  }

  /** A health query's text up to the filter. */
  function Front(q: Query): string
    requires q.HealthService?
  {
    Tagged(q.tag, q.name) + Suffix('@', q.dc) + Suffix('~', q.near)
  }

  lemma FrontIsCut(s: string, connect: bool, q: Query)
    requires NewHealthService(s, connect) == Ok(q)
    ensures Front(q) == Cut(s, '|').0
  {
    ReadFrom(q, s);
    MatchIff(HealthServiceRe, s);
    CutSuffix(Front(q), '|', Match(HealthServiceRe, s).value.filter);
  }

  lemma InnerFront(q: Query)
    requires q.HealthService? && forall f :: f in q.statuses ==> Status(f)
    ensures Inner(q) == Front(q) + Suffix('|', Join(q.statuses, ','))
  {
    JoinedStatuses(q.statuses);
    assert Front(q) + "" == Front(q);
  }

  /** The ID of a health query quotes the text up to the filter, then its statuses in order. */
  lemma HealthIdQuotes(s: string, connect: bool, q: Query)
    requires NewHealthService(s, connect) == Ok(q)
    ensures ID(q) == "health.service(" + (Cut(s, '|').0 + Suffix('|', Join(q.statuses, ','))) + ")"
  {
    FrontIsCut(s, connect, q);
    ReadFrom(q, s);
    StatusesList(Match(HealthServiceRe, s).value.filter);
    InnerFront(q);
  }

  // --- cache keys ---

  /** Everything but the connect flag, which no ID mentions. */
  function Plain(q: Query): Query {
    if q.HealthService? then q.(connect := false) else q
  }

  /** The word before the parenthesis. */
  function Head(q: Query): string {
    match q
    case HealthService(_, _, _, _, _, _, _) => "health.service"
    case CatalogService(_, _, _, _) => "catalog.service"
    case CatalogNode(_, _) => "catalog.node"
    case CatalogNodes(_, _) => "catalog.nodes"
  }

  lemma HeadChars(q: Query)
    ensures '(' !in Head(q)
  {
  }

  lemma IdParts(q: Query)
    ensures Cut(ID(q), '(') == (Head(q), if ID(q) == Head(q) then "" else Inner(q) + ")")
    ensures ID(q) == Head(q) ==> Inner(q) == ""
  {
    HeadChars(q);
    CutAt(Head(q), '(', Inner(q) + ")");
    HeadOpens(q);
  }

  lemma HeadOpens(q: Query)
    ensures if ID(q) == Head(q) then Inner(q) == "" else ID(q) == Head(q) + ['('] + (Inner(q) + ")")
  {
    assert "health.service(" == "health.service" + ['('];
    assert "catalog.service(" == "catalog.service" + ['('];
    assert "catalog.node(" == "catalog.node" + ['('];
    assert "catalog.nodes(" == "catalog.nodes" + ['('];
  }

  lemma SameKind(q: Query, r: Query)
    requires ID(q) == ID(r)
    ensures KindOf(q) == KindOf(r) && Inner(q) == Inner(r)
  {
    IdParts(q);
    IdParts(r);
    assert |"catalog.node"| == 12 && |"catalog.nodes"| == 13 && |"catalog.service"| == 15 && |"health.service"| == 14;
    assert Inner(q) + ")" == Inner(r) + ")" ==> Inner(q) == (Inner(q) + ")")[..|Inner(q)|] == Inner(r);
  }

  /** Two accepted queries share a cache key exactly when they differ in the connect flag at most. */
  lemma SameIdIff(q: Query, r: Query)
    requires Accepted(q) && Accepted(r)
    ensures ID(q) == ID(r) <==> Plain(q) == Plain(r)
  {
    if ID(q) == ID(r) {
      SameKind(q, r);
      AcceptedShape(q);
      AcceptedShape(r);
      if q == CatalogNode("", "") || r == CatalogNode("", "") {
        assert Inner(q) == "" && Inner(r) == "";
      } else {
        TextInjective(KindOf(q), GroupsOf(q), GroupsOf(r));
        if q.HealthService? {
          SameStatuses(q.statuses, r.statuses);
        }
      }
    }
  }

  lemma SameStatuses(a: seq<string>, b: seq<string>)
    requires StatusList(a) && StatusList(b) && Join(a, ',') == Join(b, ',')
    ensures a == b
  {
    JoinedStatuses(a);
    JoinedStatuses(b);
    if a != [] {
      StatusesRoundTrip(a);
      StatusesRoundTrip(b);
    }
  }

  /** A health query and the connect query for the same text share a cache key. */
  lemma ConnectCollides(s: string)
    requires NewHealthService(s, false).Ok?
    ensures var q, r := NewHealthService(s, false), NewHealthService(s, true);
            r.Ok? && q.value != r.value && ID(q.value) == ID(r.value)
  {
  }

  // --- acceptStatus ---

  method AcceptStatus(filters: seq<string>, status: string) returns (ok: bool)
    ensures ok <==> filters == [] || status in filters || "any" in filters
  {
    if |filters| == 0 {
      return true;
    }
    for i := 0 to |filters|
      invariant status !in filters[..i] && "any" !in filters[..i]
    {
      if filters[i] == status || filters[i] == "any" {
        return true;
      }
    }
    assert filters[..|filters|] == filters;
    return false;
  }

  lemma BlankStatuses()
    ensures Statuses(",") == Ok([])
  {
    assert ","[1..] == "";
    assert Split(",", ',') == [""] + [""];
    assert [""] + [""] == ["", ""] && ["", ""][1..] == [""] && [""][1..] == [];
    assert FirstInvalid([""]).None? && NonBlank([""]) == [];
  }

  /** A filter of commas alone is accepted and filters nothing. The text in the resulting ID is
      the one without a filter, and read again it lets only passing checks through. */
  lemma BlankFilter(s: string, connect: bool, q: Query)
    requires '|' !in s && NewHealthService(s, connect) == Ok(q)
    ensures q.statuses == ["passing"]
    ensures var blank := q.(statuses := [], passingOnly := false);
            NewHealthService(s + "|,", connect) == Ok(blank) && Inner(blank) == s && Reparse(blank, s) == Ok(q)
  {
    ReadFrom(q, s);
    MatchIff(HealthServiceRe, s);
    var g := Match(HealthServiceRe, s).value;
    CutSuffix(Tagged(g.tag, g.name) + Suffix('@', g.dc) + Suffix('~', g.near), '|', g.filter);
    CutAt(s, '|', "");
    assert g.filter == "";
    var h := g.(filter := ",");
    assert Text(g) + "" == Text(g);
    assert Text(h) == s + "|,";
    MatchIsTheMatch(HealthServiceRe, s + "|,", h);
    BlankStatuses();
  }

  // --- what the parsers accept ---

  /** Texts with all their parts are accepted, and each part ends up in its field. */
  lemma FullTexts(tag: string, name: string, dc: string, near: string, connect: bool)
    requires tag != "" && name != "" && dc != "" && near != ""
    requires (forall c :: c in tag ==> TagChar(c)) && (forall c :: c in name ==> ServiceNameChar(c))
    requires (forall c :: c in dc ==> PlaceChar(c)) && (forall c :: c in near ==> PlaceChar(c))
    ensures var service := tag + "." + name + "@" + dc + "~" + near;
      && NewCatalogService(service) == Ok(CatalogService(tag, name, dc, near))
      && NewHealthService(service, connect) == Ok(HealthService(connect, tag, name, dc, near, ["passing"], true))
    ensures NewCatalogNodes("@" + dc + "~" + near) == Ok(CatalogNodes(dc, near))
  {
    var g := Groups(tag, name, dc, near, "");
    var service := tag + "." + name + "@" + dc + "~" + near;
    assert service == tag + "." + name + (['@'] + dc) + (['~'] + near);
    assert service + "" == service;
    assert Text(g) == service;
    MatchIsTheMatch(CatalogServiceRe, service, g);
    MatchIsTheMatch(HealthServiceRe, service, g);
    var h := Groups("", "", dc, near, "");
    var nodes := "@" + dc + "~" + near;
    assert nodes == "" + (['@'] + dc) + (['~'] + near) && nodes + "" == nodes;
    assert Text(h) == nodes;
    MatchIsTheMatch(CatalogNodesRe, nodes, h);
  }

  lemma FullNode(name: string, dc: string)
    requires name != "" && dc != ""
    requires (forall c :: c in name ==> PlaceChar(c)) && (forall c :: c in dc ==> PlaceChar(c))
    ensures NewCatalogNode(name + "@" + dc) == Ok(CatalogNode(name, dc))
    ensures NewCatalogNode(name) == Ok(CatalogNode(name, ""))
  {
    var g := Groups("", name, dc, "", "");
    var text := name + "@" + dc;
    assert text == name + (['@'] + dc) && text + "" == text;
    assert Text(g) == text;
    MatchIsTheMatch(CatalogNodeRe, text, g);
    var h := Groups("", name, "", "", "");
    assert name + "" == name;
    assert Text(h) == name;
    MatchIsTheMatch(CatalogNodeRe, name, h);
  }
}
