/** The routing rows read back: the rules in order, and each person's routes, grouped. */
module RoutingRoutes {
  import opened Basics
  import opened Ordering
  import opened Lists
  import opened RoutingTable

  /** `order_by("source", "actor", "rank")`. */
  predicate RowLeq(a: Row, b: Row) {
    if a.key.source != b.key.source then StrLeq(a.key.source, b.key.source)
    else if a.key.actor != b.key.actor then StrLeq(a.key.actor, b.key.actor)
    else a.rank <= b.rank
  }

  function IsRule(): Row -> bool {
    (r: Row) => r.key.source != ""
  }

  function IsPersons(): Row -> bool {
    (r: Row) => r.key.source != "" && r.key.actor != ""
  }

  function ListedRules(rows: seq<Row>): seq<Row> {
    Sort(Keep(rows, IsRule()), RowLeq)
  }

  /** One person's work on one source. */
  datatype Group = Group(key: Key, rows: seq<Row>)

  datatype Route = Route(actor: string, body: Body, sources: seq<string>)

  function FindGroup(groups: seq<Group>, key: Key): (r: Option<nat>)
    ensures r.Some? ==> r.value < |groups| && groups[r.value].key == key
    ensures r.None? ==> forall i :: 0 <= i < |groups| ==> groups[i].key != key
  {
    if groups == [] then None
    else if groups[|groups| - 1].key == key then Some(|groups| - 1)
    else FindGroup(groups[..|groups| - 1], key)
  }

  function AddRow(groups: seq<Group>, row: Row): seq<Group> {
    match FindGroup(groups, row.key)
    case None => groups + [Group(row.key, [row])]
    case Some(i) => groups[i := Group(row.key, groups[i].rows + [row])]
  }

  /** The first loop of `list_agent_actor_routes`: the rows of each person's rules. */
  function Groups(rows: seq<Row>): seq<Group> {
    if rows == [] then []
    else
      var k := |rows| - 1;
      if rows[k].key.actor == "" then Groups(rows[..k]) else AddRow(Groups(rows[..k]), rows[k])
  }

  function FindRoute(routes: seq<Route>, actor: string, body: Body): (r: Option<nat>)
    ensures r.Some? ==> r.value < |routes| && routes[r.value].actor == actor && routes[r.value].body == body
    ensures r.None? ==> forall i :: 0 <= i < |routes| ==> !(routes[i].actor == actor && routes[i].body == body)
  {
    if routes == [] then None
    else if routes[|routes| - 1].actor == actor && routes[|routes| - 1].body == body then Some(|routes| - 1)
    else FindRoute(routes[..|routes| - 1], actor, body)
  }

  function AddGroup(routes: seq<Route>, g: Group): seq<Route> {
    match FindRoute(routes, g.key.actor, BodyOf(g.rows))
    case None => routes + [Route(g.key.actor, BodyOf(g.rows), [g.key.source])]
    case Some(i) => routes[i := routes[i].(sources := routes[i].sources + [g.key.source])]
  }

  /** The second loop: a person's sources that route alike are one route. */
  function Routes(groups: seq<Group>): seq<Route> {
    if groups == [] then [] else AddGroup(Routes(groups[..|groups| - 1]), groups[|groups| - 1])
  }

  predicate SourcesLeq(a: seq<string>, b: seq<string>) {
    if a == [] then true
    else if b == [] then false
    else if a[0] == b[0] then SourcesLeq(a[1..], b[1..])
    else StrLeq(a[0], b[0])
  }

  predicate RouteLeq(a: Route, b: Route) {
    if a.actor != b.actor then StrLeq(a.actor, b.actor) else SourcesLeq(a.sources, b.sources)
  }

  /** One list of sources before another: as in a dictionary, source by source. */
  ghost predicate SourcesInOrder(a: seq<string>, b: seq<string>) {
    a <= b || exists k :: SourceDiffers(a, b, k)
  }

  ghost predicate SourceDiffers(a: seq<string>, b: seq<string>, k: nat) {
    k < |a| && k < |b| && a[..k] == b[..k] && a[k] != b[k] && InDictionaryOrder(a[k], b[k])
  }

  lemma {:induction false} SourcesLeqIsOrder(a: seq<string>, b: seq<string>)
    requires SourcesLeq(a, b)
    ensures SourcesInOrder(a, b)
  {
    if a != [] && b != [] {
      assert a == [a[0]] + a[1..] && b == [b[0]] + b[1..];
      if a[0] == b[0] {
        SourcesLeqIsOrder(a[1..], b[1..]);
        if k: nat :| SourceDiffers(a[1..], b[1..], k) {
          assert a[..k + 1] == [a[0]] + a[1..][..k] && b[..k + 1] == [b[0]] + b[1..][..k];
          assert SourceDiffers(a, b, k + 1);
        }
      } else {
        StrLeqIsDictionaryOrder(a[0], b[0]);
        assert SourceDiffers(a, b, 0);
      }
    }
  }

  lemma {:induction false} SourcesLeqTotal(a: seq<string>, b: seq<string>)
    ensures SourcesLeq(a, b) || SourcesLeq(b, a)
  {
    if a != [] && b != [] {
      if a[0] == b[0] {
        SourcesLeqTotal(a[1..], b[1..]);
      } else {
        StrLeqTotal(a[0], b[0]);
      }
    }
  }

  lemma {:induction false} SourcesLeqTransitive(a: seq<string>, b: seq<string>, c: seq<string>)
    requires SourcesLeq(a, b) && SourcesLeq(b, c)
    ensures SourcesLeq(a, c)
  {
    if a != [] && b != [] && c != [] {
      if a[0] == b[0] == c[0] {
        SourcesLeqTransitive(a[1..], b[1..], c[1..]);
      } else {
        StrLeqTotal(a[0], b[0]);
        StrLeqTotal(b[0], c[0]);
        StrLeqTransitive(a[0], b[0], c[0]);
      }
    }
  }

  lemma RouteLeqIsAnOrder()
    ensures Preorder(RouteLeq)
  {
    forall a, b ensures RouteLeq(a, b) || RouteLeq(b, a) {
      StrLeqTotal(a.actor, b.actor);
      SourcesLeqTotal(a.sources, b.sources);
    }
    forall a, b, c | RouteLeq(a, b) && RouteLeq(b, c) ensures RouteLeq(a, c) {
      RouteLeqTransitive(a, b, c);
    }
  }

  lemma RouteLeqTransitive(a: Route, b: Route, c: Route)
    requires RouteLeq(a, b) && RouteLeq(b, c)
    ensures RouteLeq(a, c)
  {
    if a.actor == b.actor == c.actor {
      SourcesLeqTransitive(a.sources, b.sources, c.sources);
    } else {
      StrLeqTotal(a.actor, b.actor);
      StrLeqTotal(b.actor, c.actor);
      if a.actor != b.actor && b.actor != c.actor {
        StrLeqTransitive(a.actor, b.actor, c.actor);
      }
    }
  }

  /** The list goes by person, and one person's routes by their sources. */
  lemma ListedInOrder(rows: seq<Row>, i: nat, j: nat)
    requires i < j < |ListedRoutes(rows)|
    ensures var a, b := ListedRoutes(rows)[i], ListedRoutes(rows)[j];
            if a.actor == b.actor then SourcesInOrder(a.sources, b.sources) else InDictionaryOrder(a.actor, b.actor)
  {
    var routes := Routes(Groups(ListedRules(rows)));
    RouteLeqIsAnOrder();
    SortSorts(routes, RouteLeq);
    var a, b := ListedRoutes(rows)[i], ListedRoutes(rows)[j];
    assert RouteLeq(a, b);
    if a.actor == b.actor {
      SourcesLeqIsOrder(a.sources, b.sources);
    } else {
      StrLeqIsDictionaryOrder(a.actor, b.actor);
    }
  }

  function ListedRoutes(rows: seq<Row>): seq<Route> {
    Sort(Routes(Groups(ListedRules(rows))), RouteLeq)
  }

  /** A route written out again over its sources and its ordered runners. */
  function Expanded(route: Route): seq<Row> {
    Flat(RouteRules(route.actor, route.sources, route.body))
  }

  method CollectGroups(rules: seq<Row>) returns (groups: seq<Group>)
    ensures groups == Groups(rules)
  {
    groups := [];
    for k := 0 to |rules|
      invariant groups == Groups(rules[..k])
    {
      assert rules[..k + 1][..k] == rules[..k];
      if rules[k].key.actor != "" {
        groups := AddRow(groups, rules[k]);
      }
    }
    assert rules[..|rules|] == rules;
  }

  method CollectRoutes(groups: seq<Group>) returns (routes: seq<Route>)
    ensures routes == Routes(groups)
  {
    routes := [];
    for k := 0 to |groups|
      invariant routes == Routes(groups[..k])
    {
      assert groups[..k + 1][..k] == groups[..k];
      routes := AddGroup(routes, groups[k]);
    }
    assert groups[..|groups|] == groups;
  }

  /** `list_agent_actor_routes`. */
  method ListActorRoutes(rows: seq<Row>) returns (routes: seq<Route>)
    ensures routes == ListedRoutes(rows)
  {
    var groups := CollectGroups(ListedRules(rows));
    var grouped := CollectRoutes(groups);
    return Sort(grouped, RouteLeq);
  }

  // ---- grouping loses no row ----

  function RowsIn(): Group -> multiset<Row> {
    (g: Group) => multiset(g.rows)
  }

  function RowsBehind(): Route -> multiset<Row> {
    (r: Route) => multiset(Expanded(r))
  }

  function HasActor(): Row -> bool {
    (r: Row) => r.key.actor != ""
  }

  lemma {:induction false} GroupsHoldRows(rows: seq<Row>)
    ensures Total(Groups(rows), RowsIn()) == multiset(Keep(rows, HasActor()))
  {
    if rows != [] {
      var k := |rows| - 1;
      GroupsHoldRows(rows[..k]);
      var row, groups := rows[k], Groups(rows[..k]);
      if row.key.actor != "" {
        match FindGroup(groups, row.key)
        case None =>
          TotalAppend(groups, [Group(row.key, [row])], RowsIn());
          TotalOne(Group(row.key, [row]), RowsIn());
        case Some(i) =>
          TotalUpdate(groups, i, Group(row.key, groups[i].rows + [row]), RowsIn(), multiset([row]));
      }
    }
  }

  /** A group's rows are exactly what its rule writes. */
  ghost predicate Whole(g: Group) {
    g.rows == RowsOf(Rule(g.key, BodyOf(g.rows)))
  }

  lemma ExpandedMore(route: Route, source: string)
    ensures Expanded(route.(sources := route.sources + [source]))
            == Expanded(route) + RowsOf(Rule(Key(source, route.actor), route.body))
  {
    var rules := RouteRules(route.actor, route.sources + [source], route.body);
    assert rules[..|rules| - 1] == RouteRules(route.actor, route.sources, route.body);
  }

  lemma AddGroupRows(routes: seq<Route>, g: Group)
    requires Whole(g)
    ensures Total(AddGroup(routes, g), RowsBehind()) == Total(routes, RowsBehind()) + multiset(g.rows)
  {
    match FindRoute(routes, g.key.actor, BodyOf(g.rows))
    case None =>
      var start := Route(g.key.actor, BodyOf(g.rows), []);
      var route := Route(g.key.actor, BodyOf(g.rows), [g.key.source]);
      ExpandedMore(start, g.key.source);
      assert start.(sources := [] + [g.key.source]) == route;
      assert Expanded(route) == g.rows;
      TotalAppend(routes, [route], RowsBehind());
      TotalOne(route, RowsBehind());
    case Some(i) =>
      ExpandedMore(routes[i], g.key.source);
      TotalUpdate(routes, i, routes[i].(sources := routes[i].sources + [g.key.source]), RowsBehind(), multiset(g.rows));
  }

  lemma OneMoreGroupRows(groups: seq<Group>, before: seq<Group>, g: Group)
    requires groups != [] && before == groups[..|groups| - 1] && g == groups[|groups| - 1] && Whole(g)
    requires Total(Routes(before), RowsBehind()) == Total(before, RowsIn())
    ensures Total(Routes(groups), RowsBehind()) == Total(groups, RowsIn())
  {
    AddGroupRows(Routes(before), g);
    TotalLast(groups, RowsIn());
  }

  lemma {:induction false} RoutesHoldRows(groups: seq<Group>)
    requires forall i :: 0 <= i < |groups| ==> Whole(groups[i])
    ensures Total(Routes(groups), RowsBehind()) == Total(groups, RowsIn())
  {
    if groups != [] {
      var before := groups[..|groups| - 1];
      RoutesHoldRows(before);
      OneMoreGroupRows(groups, before, groups[|groups| - 1]);
    }
  }

  // ---- each group is one rule of the table ----

  ghost predicate GroupOk(g: Group, rows: seq<Row>) {
    g.key.actor != "" && g.rows == Of(rows, g.key) && g.rows != []
  }

  ghost predicate KeysOk(groups: seq<Group>) {
    forall i, j :: 0 <= i < j < |groups| ==>
      groups[i].key != groups[j].key && StrLeq(groups[i].key.source, groups[j].key.source)
  }

  ghost predicate GroupsOk(groups: seq<Group>, rows: seq<Row>) {
    && KeysOk(groups)
    && (forall i :: 0 <= i < |groups| ==> GroupOk(groups[i], rows))
    && (forall k :: 0 <= k < |rows| && rows[k].key.actor != "" ==> FindGroup(groups, rows[k].key).Some?)
  }

  lemma RowLeqPreorder()
    ensures Preorder(RowLeq)
  {
    forall a, b ensures RowLeq(a, b) || RowLeq(b, a) {
      StrLeqTotal(a.key.source, b.key.source);
      StrLeqTotal(a.key.actor, b.key.actor);
    }
    forall a, b, c | RowLeq(a, b) && RowLeq(b, c) ensures RowLeq(a, c) {
      RowLeqTransitive(a, b, c);
    }
  }

  lemma RowLeqTransitive(a: Row, b: Row, c: Row)
    requires RowLeq(a, b) && RowLeq(b, c)
    ensures RowLeq(a, c)
  {
    StrLeqTotal(a.key.source, b.key.source);
    StrLeqTotal(b.key.source, c.key.source);
    StrLeqTotal(a.key.actor, b.key.actor);
    StrLeqTotal(b.key.actor, c.key.actor);
    if StrLeq(a.key.source, b.key.source) && StrLeq(b.key.source, c.key.source) {
      StrLeqTransitive(a.key.source, b.key.source, c.key.source);
    }
    if StrLeq(a.key.actor, b.key.actor) && StrLeq(b.key.actor, c.key.actor) {
      StrLeqTransitive(a.key.actor, b.key.actor, c.key.actor);
    }
  }

  lemma GroupFound(groups: seq<Group>, row: Row, key: Key)
    requires key == row.key || FindGroup(groups, key).Some?
    ensures FindGroup(AddRow(groups, row), key).Some?
  {
    var after := AddRow(groups, row);
    var at := match FindGroup(groups, key) case None => |groups| case Some(i) => i;
    assert after[at].key == key;
  }

  lemma OfMore(rows: seq<Row>, row: Row, key: Key)
    ensures Of(rows + [row], key) == Of(rows, key) + (if row.key == key then [row] else [])
  {
  }

  lemma AddedGroupOk(groups: seq<Group>, rows: seq<Row>, row: Row, i: nat)
    requires GroupsOk(groups, rows) && row.key.actor != "" && i < |AddRow(groups, row)|
    ensures GroupOk(AddRow(groups, row)[i], rows + [row])
  {
    OfMore(rows, row, AddRow(groups, row)[i].key);
    if FindGroup(groups, row.key).None? {
      NoRowsWithoutGroup(groups, rows, row.key);
    }
    assert i < |groups| ==> GroupOk(groups[i], rows);
  }

  lemma AddRowOk(groups: seq<Group>, rows: seq<Row>, row: Row)
    requires GroupsOk(groups, rows) && row.key.actor != ""
    requires forall x :: x in rows ==> RowLeq(x, row)
    ensures GroupsOk(AddRow(groups, row), rows + [row])
  {
    var more := rows + [row];
    var after := AddRow(groups, row);
    forall k | 0 <= k < |more| && more[k].key.actor != "" ensures FindGroup(after, more[k].key).Some? {
      GroupFound(groups, row, more[k].key);
    }
    forall i | 0 <= i < |after| ensures GroupOk(after[i], more) {
      AddedGroupOk(groups, rows, row, i);
    }
    match FindGroup(groups, row.key)
    case None =>
      forall i | 0 <= i < |groups| ensures StrLeq(groups[i].key.source, row.key.source) {
        assert GroupOk(groups[i], rows);
        var first := groups[i].rows[0];
        KeepMember(rows, HasKey(groups[i].key), first);
        StrLeqTotal(first.key.source, row.key.source);
      }
    case Some(_) =>
  }

  lemma NoRowsWithoutGroup(groups: seq<Group>, rows: seq<Row>, key: Key)
    requires GroupsOk(groups, rows) && key.actor != "" && FindGroup(groups, key).None?
    ensures Of(rows, key) == []
  {
    forall x | x in rows ensures x.key != key {
      var k :| 0 <= k < |rows| && rows[k] == x;
    }
    KeepNone(rows, HasKey(key));
  }

  lemma {:induction false} GroupsOfSorted(rows: seq<Row>)
    requires SortedBy(rows, RowLeq)
    ensures GroupsOk(Groups(rows), rows)
  {
    if rows != [] {
      var k := |rows| - 1;
      var row := rows[k];
      assert rows == rows[..k] + [row];
      GroupsOfSorted(rows[..k]);
      if row.key.actor != "" {
        AddRowOk(Groups(rows[..k]), rows[..k], row);
      } else {
        var groups := Groups(rows[..k]);
        forall i | 0 <= i < |groups| ensures groups[i].rows == Of(rows, groups[i].key) {
          assert groups[i].key != row.key;
        }
      }
    }
  }

  lemma RuleOkIsWhole(rows: seq<Row>, key: Key)
    requires RuleOk(rows, key)
    ensures rows == RowsOf(Rule(key, BodyOf(rows)))
    ensures SortedBy(rows, RowLeq) && Keyed(rows, RowLeq)
  {
    forall x, y | x in rows && y in rows && RowLeq(x, y) && RowLeq(y, x) ensures x == y {
      var i :| 0 <= i < |rows| && rows[i] == x;
      var j :| 0 <= j < |rows| && rows[j] == y;
    }
  }

  /** Reading the rules back in order leaves each rule's rows as they are. */
  lemma OfListed(rows: seq<Row>, key: Key)
    requires Inv(rows) && key.source != ""
    ensures Of(ListedRules(rows), key) == Of(rows, key)
  {
    var rules := Keep(rows, IsRule());
    RowLeqPreorder();
    SortSorts(rules, RowLeq);
    KeepSorted(ListedRules(rows), HasKey(key), RowLeq);
    KeepPermuted(ListedRules(rows), rules, HasKey(key));
    KeepTwice(rows, IsRule(), HasKey(key), HasKey(key));
    assert RuleOk(Of(rows, key), key);
    RuleOkIsWhole(Of(rows, key), key);
    SortedIsUnique(Of(rows, key), Of(ListedRules(rows), key), RowLeq);
  }

  lemma ListedSorted(rows: seq<Row>)
    ensures SortedBy(ListedRules(rows), RowLeq)
    ensures forall r :: r in ListedRules(rows) ==> r.key.source != "" && r in rows
  {
    RowLeqPreorder();
    SortSorts(Keep(rows, IsRule()), RowLeq);
    forall r | r in ListedRules(rows) ensures r.key.source != "" && r in rows {
      assert r in multiset(ListedRules(rows));
      KeepMember(rows, IsRule(), r);
    }
  }

  /** The rules are listed by source, then by actor, in dictionary order, and one rule's runners
      by rank. */
  lemma ListedRulesInOrder(rows: seq<Row>, i: nat, j: nat)
    requires i < j < |ListedRules(rows)|
    ensures var a, b := ListedRules(rows)[i], ListedRules(rows)[j];
            if a.key.source != b.key.source then InDictionaryOrder(a.key.source, b.key.source)
            else if a.key.actor != b.key.actor then InDictionaryOrder(a.key.actor, b.key.actor)
            else a.rank <= b.rank
  {
    ListedSorted(rows);
    var a, b := ListedRules(rows)[i], ListedRules(rows)[j];
    assert RowLeq(a, b);
    StrLeqIsDictionaryOrder(a.key.source, b.key.source);
    StrLeqIsDictionaryOrder(a.key.actor, b.key.actor);
  }

  /** Each group holds one rule of the table, whole. */
  lemma ListedGroups(rows: seq<Row>)
    requires Inv(rows)
    ensures var groups := Groups(ListedRules(rows));
            && KeysOk(groups)
            && forall i :: 0 <= i < |groups| ==>
                 groups[i].key.source != "" && GroupOk(groups[i], rows) && Whole(groups[i])
  {
    var listed := ListedRules(rows);
    var groups := Groups(listed);
    ListedSorted(rows);
    GroupsOfSorted(listed);
    forall i | 0 <= i < |groups|
      ensures groups[i].key.source != "" && GroupOk(groups[i], rows) && Whole(groups[i])
    {
      assert GroupOk(groups[i], listed);
      KeepMember(listed, HasKey(groups[i].key), groups[i].rows[0]);
      OfListed(rows, groups[i].key);
      assert RuleOk(Of(rows, groups[i].key), groups[i].key);
      RuleOkIsWhole(groups[i].rows, groups[i].key);
    }
  }

  lemma RowsHaveGroup(rows: seq<Row>, key: Key)
    requires Inv(rows) && key.source != "" && key.actor != "" && Of(rows, key) != []
    ensures FindGroup(Groups(ListedRules(rows)), key).Some?
  {
    ListedSorted(rows);
    GroupsOfSorted(ListedRules(rows));
    OfListed(rows, key);
    if FindGroup(Groups(ListedRules(rows)), key).None? {
      NoRowsWithoutGroup(Groups(ListedRules(rows)), ListedRules(rows), key);
    }
  }

  /** Grouping loses nothing: the routes listed, written out again over their sources and
      ordered runners, are exactly the table's per-person rows. */
  lemma RoutesAreLossless(rows: seq<Row>)
    requires Inv(rows)
    ensures Total(ListedRoutes(rows), RowsBehind()) == multiset(Keep(rows, IsPersons()))
  {
    var listed := ListedRules(rows);
    ListedGroups(rows);
    TotalSort(Routes(Groups(listed)), RouteLeq, RowsBehind());
    RoutesHoldRows(Groups(listed));
    GroupsHoldRows(listed);
    KeepPermuted(listed, Keep(rows, IsRule()), HasActor());
    KeepTwice(rows, IsRule(), HasActor(), IsPersons());
  }

  /** In particular for every table the routing writes can reach. */
  lemma ReachableRoutesAreLossless(calls: seq<Call>)
    ensures Total(ListedRoutes(Run([], calls)), RowsBehind()) == multiset(Keep(Run([], calls), IsPersons()))
  {
    EmptyTableIsOk();
    RunKeeps([], calls);
    RoutesAreLossless(Run([], calls));
  }

  // ---- what was sent comes back ----

  function BodyAt(groups: seq<Group>, key: Key): Option<Body> {
    match FindGroup(groups, key)
    case None => None
    case Some(i) => Some(BodyOf(groups[i].rows))
  }

  /** What the groups say of a person's work on a source is what the table says. */
  lemma BodyAtListed(rows: seq<Row>, key: Key)
    requires Inv(rows)
    ensures BodyAt(Groups(ListedRules(rows)), key)
            == if key.source != "" && key.actor != "" && Of(rows, key) != [] then Some(BodyOf(Of(rows, key))) else None
  {
    var groups := Groups(ListedRules(rows));
    ListedGroups(rows);
    if FindGroup(groups, key).Some? {
      assert GroupOk(groups[FindGroup(groups, key).value], rows);
    } else if key.source != "" && key.actor != "" && Of(rows, key) != [] {
      RowsHaveGroup(rows, key);
    }
  }

  ghost predicate RouteOk(route: Route, groups: seq<Group>) {
    && (forall p :: 0 <= p < |route.sources| ==>
          BodyAt(groups, Key(route.sources[p], route.actor)) == Some(route.body))
    && SortedBy(route.sources, StrLeq) && Distinct(route.sources)
  }

  predicate Carries(routes: seq<Route>, g: Group) {
    match FindRoute(routes, g.key.actor, BodyOf(g.rows))
    case None => false
    case Some(i) => g.key.source in routes[i].sources
  }

  /** No two routes say the same of the same person. */
  ghost predicate Unlike(routes: seq<Route>) {
    forall i, j :: 0 <= i < j < |routes| ==> routes[i].actor != routes[j].actor || routes[i].body != routes[j].body
  }

  ghost predicate RoutesOk(routes: seq<Route>, groups: seq<Group>) {
    && Unlike(routes)
    && (forall i :: 0 <= i < |routes| ==> RouteOk(routes[i], groups) && routes[i].sources != [])
    && (forall k :: 0 <= k < |groups| ==> Carries(routes, groups[k]))
  }

  lemma OneMoreGroup(groups: seq<Group>, g: Group, key: Key)
    ensures BodyAt(groups + [g], key) == if key == g.key then Some(BodyOf(g.rows)) else BodyAt(groups, key)
  {
    assert (groups + [g])[..|groups|] == groups;
  }

  lemma RouteStaysOk(route: Route, groups: seq<Group>, g: Group)
    requires RouteOk(route, groups) && KeysOk(groups + [g])
    ensures RouteOk(route, groups + [g])
  {
    forall p | 0 <= p < |route.sources|
      ensures BodyAt(groups + [g], Key(route.sources[p], route.actor)) == Some(route.body)
    {
      var key := Key(route.sources[p], route.actor);
      OneMoreGroup(groups, g, key);
      OlderKey(groups, g, key);
    }
  }

  lemma OlderKey(groups: seq<Group>, g: Group, key: Key)
    requires KeysOk(groups + [g]) && FindGroup(groups, key).Some?
    ensures key != g.key && StrLeq(key.source, g.key.source)
  {
    var i := FindGroup(groups, key).value;
    assert (groups + [g])[i] == groups[i] && (groups + [g])[|groups|] == g;
  }

  lemma RouteGrows(route: Route, groups: seq<Group>, g: Group)
    requires RouteOk(route, groups) && KeysOk(groups + [g])
    requires route.actor == g.key.actor && route.body == BodyOf(g.rows)
    ensures RouteOk(route.(sources := route.sources + [g.key.source]), groups + [g])
  {
    RouteStaysOk(route, groups, g);
    OneMoreGroup(groups, g, g.key);
    forall p | 0 <= p < |route.sources|
      ensures route.sources[p] != g.key.source && StrLeq(route.sources[p], g.key.source)
    {
      OlderKey(groups, g, Key(route.sources[p], route.actor));
    }
  }

  lemma {:induction false} FindRouteIs(routes: seq<Route>, i: nat)
    requires i < |routes| && Unlike(routes)
    ensures FindRoute(routes, routes[i].actor, routes[i].body) == Some(i)
  {
  }

  lemma AddGroupCarries(routes: seq<Route>, g: Group, h: Group)
    requires Unlike(routes) && Unlike(AddGroup(routes, g)) && (h == g || Carries(routes, h))
    ensures Carries(AddGroup(routes, g), h)
  {
    var at := match FindRoute(routes, h.key.actor, BodyOf(h.rows)) case None => |routes| case Some(i) => i;
    FindRouteIs(AddGroup(routes, g), at);
  }

  lemma UnlikeStays(routes: seq<Route>, g: Group)
    requires Unlike(routes)
    ensures Unlike(AddGroup(routes, g))
  {
  }

  lemma AddGroupOk(routes: seq<Route>, groups: seq<Group>, g: Group)
    requires RoutesOk(routes, groups) && KeysOk(groups + [g])
    ensures RoutesOk(AddGroup(routes, g), groups + [g])
  {
    var after := AddGroup(routes, g);
    var more := groups + [g];
    UnlikeStays(routes, g);
    forall i | 0 <= i < |after| ensures RouteOk(after[i], more) && after[i].sources != [] {
      AddedRouteOk(routes, groups, g, i);
    }
    forall k | 0 <= k < |more| ensures Carries(after, more[k]) {
      AddGroupCarries(routes, g, more[k]);
    }
  }

  lemma AddedRouteOk(routes: seq<Route>, groups: seq<Group>, g: Group, i: nat)
    requires RoutesOk(routes, groups) && KeysOk(groups + [g]) && i < |AddGroup(routes, g)|
    ensures RouteOk(AddGroup(routes, g)[i], groups + [g]) && AddGroup(routes, g)[i].sources != []
  {
    var was := if i < |routes| then routes[i] else Route(g.key.actor, BodyOf(g.rows), []);
    assert was.sources == [] ==> was.sources + [g.key.source] == [g.key.source];
    if AddGroup(routes, g)[i] == was {
      RouteStaysOk(was, groups, g);
    } else {
      RouteGrows(was, groups, g);
    }
  }

  lemma OneMoreGroupRoutes(groups: seq<Group>, before: seq<Group>, g: Group)
    requires KeysOk(groups) && groups == before + [g] && RoutesOk(Routes(before), before)
    ensures RoutesOk(Routes(groups), groups)
  {
    assert groups[..|groups| - 1] == before;
    AddGroupOk(Routes(before), before, g);
  }

  lemma {:induction false} RoutesOfGroups(groups: seq<Group>)
    requires KeysOk(groups)
    ensures RoutesOk(Routes(groups), groups)
  {
    if groups != [] {
      var before, g := groups[..|groups| - 1], groups[|groups| - 1];
      assert groups == before + [g];
      RoutesOfGroups(before);
      OneMoreGroupRoutes(groups, before, g);
    }
  }

  function ByActor(actor: string): Route -> bool {
    (r: Route) => r.actor == actor
  }

  lemma AcceptedRoute(rows: seq<Row>, actor: Email, sources: Option<seq<string>>, body: Body, caller: Caller)
    requires SetActorRouteChange(rows, Address(actor), sources, body, caller).Ok?
    ensures var change := Change(Person(actor), RouteRules(actor, SourcesSent(sources), body));
            && GoodChange(change)
            && After(rows, SetActorRoute(Address(actor), sources, body), caller) == Replaced(rows, change.scope, change.rules)
  {
    RouteGood(rows, Address(actor), sources, body, caller);
  }

  /** After a person's route is set, the person has a rule on each source named and on no
      other, and each is the one sent. */
  lemma RulesAfterSet(rows: seq<Row>, actor: Email, sources: Option<seq<string>>, body: Body, caller: Caller, source: string)
    requires SetActorRouteChange(rows, Address(actor), sources, body, caller).Ok? && source != ""
    ensures var key := Key(source, actor);
            Of(After(rows, SetActorRoute(Address(actor), sources, body), caller), key)
            == if source in SourcesSent(sources) then RowsOf(Rule(key, body)) else []
  {
    var rules := RouteRules(actor, SourcesSent(sources), body);
    AcceptedRoute(rows, actor, sources, body, caller);
    OfReplaced(rows, Change(Person(actor), rules), Key(source, actor));
    BodyInRoute(actor, SourcesSent(sources), body, source);
  }

  lemma BodyInRoute(actor: string, sources: seq<string>, body: Body, source: string)
    requires Distinct(KeysOf(RouteRules(actor, sources, body)))
    ensures BodyIn(RouteRules(actor, sources, body), Key(source, actor)) == if source in sources then Some(body) else None
  {
    var rules := RouteRules(actor, sources, body);
    BodyInDistinct(rules, Key(source, actor));
    if source in sources {
      var i :| 0 <= i < |sources| && sources[i] == source;
      assert KeysOf(rules)[i] == Key(source, actor);
    } else {
      forall i | 0 <= i < |rules| ensures KeysOf(rules)[i] != Key(source, actor) {
        assert rules[i].key == Key(sources[i], actor);
      }
    }
  }

  lemma BodyAtAfterSet(rows: seq<Row>, actor: Email, sources: Option<seq<string>>, body: Body, caller: Caller, source: string)
    requires Inv(rows) && SetActorRouteChange(rows, Address(actor), sources, body, caller).Ok?
    ensures var after := After(rows, SetActorRoute(Address(actor), sources, body), caller);
            BodyAt(Groups(ListedRules(after)), Key(source, actor))
            == if source in SourcesSent(sources) then Some(body) else None
  {
    var after := After(rows, SetActorRoute(Address(actor), sources, body), caller);
    SetKeeps(rows, actor, sources, body, caller);
    BodyAtListed(after, Key(source, actor));
    if source in SourcesSent(sources) {
      NamedIsSource(rows, actor, sources, body, caller, source);
      RowsOfGoodRule(Rule(Key(source, actor), body));
    }
    if source != "" {
      RulesAfterSet(rows, actor, sources, body, caller, source);
    }
  }

  lemma NamedIsSource(rows: seq<Row>, actor: Email, sources: Option<seq<string>>, body: Body, caller: Caller, source: string)
    requires SetActorRouteChange(rows, Address(actor), sources, body, caller).Ok? && source in SourcesSent(sources)
    ensures source in ACTOR_SOURCES && source != "" && GoodRule(Rule(Key(source, actor), body)) && body.picks != []
  {
    var named := SourcesSent(sources);
    var i :| 0 <= i < |named| && named[i] == source;
  }

  lemma SetKeeps(rows: seq<Row>, actor: Email, sources: Option<seq<string>>, body: Body, caller: Caller)
    requires Inv(rows) && SetActorRouteChange(rows, Address(actor), sources, body, caller).Ok?
    ensures Inv(After(rows, SetActorRoute(Address(actor), sources, body), caller))
  {
    RouteGood(rows, Address(actor), sources, body, caller);
    ReplacedKeeps(rows, SetActorRouteChange(rows, Address(actor), sources, body, caller).value);
  }

  /** A person whose sources all route alike is listed with one route, over those sources
      in order. */
  lemma OneRouteForAll(routes: seq<Route>, groups: seq<Group>, actor: string, body: Body, named: seq<string>)
    requires RoutesOk(routes, groups) && named != [] && Distinct(named)
    requires forall source :: BodyAt(groups, Key(source, actor)) == if source in named then Some(body) else None
    ensures Keep(routes, ByActor(actor)) == [Route(actor, body, Sort(named, StrLeq))]
  {
    forall source | source in named
      ensures FindRoute(routes, actor, body).Some? && source in routes[FindRoute(routes, actor, body).value].sources
    {
      assert BodyAt(groups, Key(source, actor)) == Some(body);
      assert Carries(routes, groups[FindGroup(groups, Key(source, actor)).value]);
    }
    assert named[0] in named;
    var r := FindRoute(routes, actor, body).value;
    assert RouteOk(routes[r], groups);
    forall source ensures source in routes[r].sources <==> source in named {
      if source in routes[r].sources {
        var p :| 0 <= p < |routes[r].sources| && routes[r].sources[p] == source;
        assert BodyAt(groups, Key(source, actor)) == Some(body);
      }
    }
    SameDistinct(routes[r].sources, named);
    SortedStrings(routes[r].sources, named);
    forall j | 0 <= j < |routes| && routes[j].actor == actor ensures j == r {
      assert RouteOk(routes[j], groups);
      assert BodyAt(groups, Key(routes[j].sources[0], actor)) == Some(routes[j].body);
    }
    KeepOne(routes, ByActor(actor), r);
  }

  /** Setting a person's route and listing gives back one route for them: the runners,
      strictness and mode sent, on the sources sent. */
  lemma SetThenList(rows: seq<Row>, actor: Email, sources: Option<seq<string>>, body: Body, caller: Caller)
    requires Inv(rows) && SetActorRouteChange(rows, Address(actor), sources, body, caller).Ok?
    ensures Keep(ListedRoutes(After(rows, SetActorRoute(Address(actor), sources, body), caller)), ByActor(actor))
            == [Route(actor, body, Sort(SourcesSent(sources), StrLeq))]
  {
    var after := After(rows, SetActorRoute(Address(actor), sources, body), caller);
    var groups := Groups(ListedRules(after));
    SetKeeps(rows, actor, sources, body, caller);
    ListedGroups(after);
    RoutesOfGroups(groups);
    forall source
      ensures BodyAt(groups, Key(source, actor)) == if source in SourcesSent(sources) then Some(body) else None
    {
      BodyAtAfterSet(rows, actor, sources, body, caller, source);
    }
    SomeSourceSent(sources);
    OneRouteForAll(Routes(groups), groups, actor, body, SourcesSent(sources));
    OneSurvivesSort(Routes(groups), RouteLeq, ByActor(actor), Route(actor, body, Sort(SourcesSent(sources), StrLeq)));
  }

  lemma SomeSourceSent(sources: Option<seq<string>>)
    ensures SourcesSent(sources) != []
  {
    var s := if sources.None? || sources.value == [] then ACTOR_SOURCES else sources.value;
    assert s[0] in s;
    assert s[0] in Deduped(s);
  }

  // ---- routes that cannot be sent back ----

  /** A listed route is a rule of the table, on each of its sources. */
  lemma ListedRouteIsARule(rows: seq<Row>, route: Route, p: nat)
    requires Inv(rows) && route in ListedRoutes(rows)
    ensures route.sources != []
    ensures p < |route.sources| ==>
              var key := Key(route.sources[p], route.actor);
              key.actor != "" && Of(rows, key) != [] && BodyOf(Of(rows, key)) == route.body
  {
    ListedRouteOk(rows, route);
    if p < |route.sources| {
      BodyAtListed(rows, Key(route.sources[p], route.actor));
    }
  }

  lemma ListedRouteOk(rows: seq<Row>, route: Route)
    requires Inv(rows) && route in ListedRoutes(rows)
    ensures RouteOk(route, Groups(ListedRules(rows))) && route.sources != []
  {
    var groups := Groups(ListedRules(rows));
    ListedGroups(rows);
    RoutesOfGroups(groups);
    SameElements(Routes(groups), ListedRoutes(rows));
    var i :| 0 <= i < |Routes(groups)| && Routes(groups)[i] == route;
  }

  lemma FullRightsSend(rows: seq<Row>, actor: Email, sources: seq<string>, body: Body, caller: Caller)
    requires sources != [] && body.picks != [] && !Repeats(body.picks) && caller.admin
    requires forall i :: 0 <= i < |body.picks| ==> body.picks[i].runner in caller.live && body.picks[i].runner in caller.addable
    ensures SetActorRouteChange(rows, Address(actor), Some(sources), body, caller).Ok?
            <==> forall s :: s in sources ==> s in ACTOR_SOURCES
  {
    var named := SourcesSent(Some(sources));
    assert named == Deduped(sources);
    if s :| s in sources && s !in ACTOR_SOURCES {
      var i :| 0 <= i < |named| && named[i] == s;
    }
  }

  /** A listed route can be sent back to the person-route endpoint, by a caller with every
      right, exactly when each of its sources carries a person. */
  lemma ListedRouteCanBeSentBack(rows: seq<Row>, route: Route, caller: Caller)
    requires Inv(rows) && route in ListedRoutes(rows) && caller.admin
    requires forall i :: 0 <= i < |route.body.picks| ==>
               route.body.picks[i].runner in caller.live && route.body.picks[i].runner in caller.addable
    ensures route.actor != ""
    ensures SetActorRouteChange(rows, Address(route.actor), Some(route.sources), route.body, caller).Ok?
            <==> forall s :: s in route.sources ==> s in ACTOR_SOURCES
  {
    ListedRouteIsARule(rows, route, 0);
    var source := route.sources[0];
    var key := Key(source, route.actor);
    assert RuleOk(Of(rows, key), key);
    forall a, b | 0 <= a < b < |route.body.picks| ensures Runners(route.body.picks)[a] != Runners(route.body.picks)[b] {
      assert Of(rows, key)[a].runner != Of(rows, key)[b].runner;
    }
    FullRightsSend(rows, route.actor, route.sources, route.body, caller);
  }

  /** Such a route exists: the wholesale write takes a person's rule on the scheduler, whose
      turns carry no person, which the one-rule and person writes refuse. */
  lemma SchedulerRuleForAPerson(actor: Email, runner: nat, caller: Caller)
    requires runner in caller.live && runner in caller.addable
    ensures var body := Body([Pick(runner, true)], true, "");
            && ReplaceRulesChange([], [RuleIn(SCHEDULER, Address(actor), body)], caller).Ok?
            && SetRuleChange([], SCHEDULER, Address(actor), body, caller).Err?
            && SetActorRouteChange([], Address(actor), Some([SCHEDULER]), body, caller).Err?
            && !(SCHEDULER in ACTOR_SOURCES) && SCHEDULER in ROUTABLE
  {
    var body := Body([Pick(runner, true)], true, "");
    var sent := RulesSent([RuleIn(SCHEDULER, Address(actor), body)]);
    assert sent == [Rule(Key(SCHEDULER, actor), body)];
    assert Of([], Key(SCHEDULER, actor)) == [];
    assert ROUTABLE[2] == SCHEDULER;
    assert SCHEDULER in SourcesSent(Some([SCHEDULER]));
  }
}
