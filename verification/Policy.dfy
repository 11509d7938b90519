/**
 The policy document the operator pushes to Headscale: an inline base, with the tag owners
 of the Headscale resource and the merged entries of its auto-approvers written over it.
 JSON text is left to the JSON library: a document is the map it denotes.
 */
module Policy {
  import opened Wrappers
  import opened Strings

  datatype Json = Null | Bool(b: bool) | Number(literal: string) | Text(s: string)
    | List(items: seq<Json>) | Object(fields: map<string, Json>)

  type Document = map<string, Json>

  /** What the JSON library makes of `acl_policy.inline`. */
  datatype Inline = Blank | NotHuJson | NotAnObject | Parsed(doc: Document)

  datatype AclPolicy = AclPolicy(tagOwners: map<string, seq<string>>, inlineText: Inline)

  datatype Route = Route(cidr: string, tags: seq<string>)

  datatype ApproverSpec = ApproverSpec(routes: seq<Route>, exitNodeTags: seq<string>)

  const TAG_OWNERS := "tagOwners"
  const AUTO_APPROVERS := "autoApprovers"
  const ROUTES := "routes"
  const EXIT_NODE := "exitNode"

  function ParseInlinePolicy(text: Inline): Result<Document> {
    match text
    case Blank => Ok(map[])
    case NotHuJson => Err
    case NotAnObject => Err
    case Parsed(doc) => Ok(doc)
  }

  /** A Go `[]string` as JSON: the slices the merge leaves empty are nil, which marshals to `null`. */
  function StringList(s: seq<string>): Json {
    if s == [] then Null else List(Texts(s))
  }

  function Texts(s: seq<string>): seq<Json> {
    if s == [] then [] else [Text(s[0])] + Texts(s[1..])
  }

  /** There is no text, or it is a JSON object. */
  predicate Readable(text: Inline) {
    text.Blank? || text.Parsed?
  }

  /** The text is an object with this key. */
  predicate Supplies(text: Inline, key: string) {
    text.Parsed? && key in text.doc
  }

  // ---------- What the merge means, as sets ----------

  ghost function RoutesOf(approvers: seq<ApproverSpec>): set<Route> {
    set a, r | a in approvers && r in a.routes :: r
  }

  ghost function ExitTags(approvers: seq<ApproverSpec>): set<string> {
    set a, t | a in approvers && t in a.exitNodeTags :: t
  }

  ghost function Cidrs(routes: set<Route>): set<string> {
    set r | r in routes :: r.cidr
  }

  ghost function TagsFor(routes: set<Route>, cidr: string): set<string> {
    set r, t | r in routes && r.cidr == cidr && t in r.tags :: t
  }

  ghost function RouteTable(routes: set<Route>): map<string, Json> {
    map c | c in Cidrs(routes) :: StringList(Canonical(TagsFor(routes, c)))
  }

  ghost function Section(routes: set<Route>, exits: set<string>): map<string, Json> {
    var section := if routes == {} then map[] else map[][ROUTES := Object(RouteTable(routes))];
    if exits == {} then section else section[EXIT_NODE := StringList(Canonical(exits))]
  }

  ghost function OwnerTable(owners: map<string, seq<string>>): map<string, Json> {
    map tag | tag in owners :: StringList(Canonical(Elements(owners[tag])))
  }

  ghost function WithOwners(doc: Document, base: Option<AclPolicy>): Document {
    if base.Some? && base.value.tagOwners != map[]
    then doc[TAG_OWNERS := Object(OwnerTable(base.value.tagOwners))]
    else doc
  }

  ghost function WithSection(doc: Document, routes: set<Route>, exits: set<string>): Document {
    if routes == {} && exits == {} then doc else doc[AUTO_APPROVERS := Object(Section(routes, exits))]
  }

  ghost function PolicyDocument(base: Option<AclPolicy>, approvers: seq<ApproverSpec>): Result<Document> {
    var parsed := ParseInlinePolicy(if base.Some? then base.value.inlineText else Blank);
    if parsed.Err? then Err
    else Ok(WithSection(WithOwners(parsed.value, base), RoutesOf(approvers), ExitTags(approvers)))
  }

  // ---------- The loops ----------

  /** `routes` holds the merge of the routes in `done`. */
  ghost predicate Merged(routes: map<string, seq<string>>, done: set<Route>) {
    && routes.Keys == Cidrs(done)
    && forall c | c in routes :: NoDuplicates(routes[c]) && Elements(routes[c]) == TagsFor(done, c)
  }

  /** The tags not seen in `existing` yet, appended in order. */
  method AppendUnseen(existing: seq<string>, tags: seq<string>) returns (r: seq<string>)
    requires NoDuplicates(existing)
    ensures NoDuplicates(r) && Elements(r) == Elements(existing) + Elements(tags)
  {
    var seen := {};
    for i := 0 to |existing|
      invariant seen == Elements(existing[..i])
    {
      seen := seen + {existing[i]};
      assert existing[..i + 1] == existing[..i] + [existing[i]];
    }
    assert existing[..|existing|] == existing;
    r := existing;
    for i := 0 to |tags|
      invariant seen == Elements(r) == Elements(existing) + Elements(tags[..i])
      invariant NoDuplicates(r)
    {
      var t := tags[i];
      assert tags[..i + 1] == tags[..i] + [t];
      if t !in seen {
        seen := seen + {t};
        r := r + [t];
      }
    }
    assert tags[..|tags|] == tags;
  }

  /** One route: the union of tags per CIDR, also when several routes claim it. */
  method MergeRoute(routes: map<string, seq<string>>, route: Route, ghost done: set<Route>)
    returns (merged: map<string, seq<string>>)
    requires Merged(routes, done)
    ensures Merged(merged, done + {route})
  {
    var existing := if route.cidr in routes then routes[route.cidr] else [];
    assert Elements(existing) == TagsFor(done, route.cidr);
    existing := AppendUnseen(existing, route.tags);
    merged := routes[route.cidr := existing];
    forall c | c in merged ensures NoDuplicates(merged[c]) && Elements(merged[c]) == TagsFor(done + {route}, c) {
      TagsForAdd(done, route, c);
    }
  }

  lemma TagsForAdd(routes: set<Route>, route: Route, cidr: string)
    ensures TagsFor(routes + {route}, cidr)
         == TagsFor(routes, cidr) + (if route.cidr == cidr then Elements(route.tags) else {})
  {
  }

  /** The nested loops over approvers, routes and exit tags. */
  method MergeApprovers(approvers: seq<ApproverSpec>)
    returns (routes: map<string, seq<string>>, exitTagSet: set<string>)
    ensures Merged(routes, RoutesOf(approvers))
    ensures exitTagSet == ExitTags(approvers)
  {
    routes, exitTagSet := map[], {};
    for i := 0 to |approvers|
      invariant Merged(routes, RoutesOf(approvers[..i]))
      invariant exitTagSet == ExitTags(approvers[..i])
    {
      var a := approvers[i];
      ghost var before, exitsBefore := RoutesOf(approvers[..i]), exitTagSet;
      EntriesAppend(approvers[..i], a);
      assert approvers[..i + 1] == approvers[..i] + [a];
      assert before + RouteSet(a.routes[..0]) == before;
      for j := 0 to |a.routes|
        invariant Merged(routes, before + RouteSet(a.routes[..j]))
      {
        routes := MergeRoute(routes, a.routes[j], before + RouteSet(a.routes[..j]));
        RouteSetAppend(a.routes, j);
        assert before + RouteSet(a.routes[..j]) + {a.routes[j]} == before + RouteSet(a.routes[..j + 1]);
      }
      assert a.routes[..|a.routes|] == a.routes;
      for j := 0 to |a.exitNodeTags|
        invariant exitTagSet == exitsBefore + Elements(a.exitNodeTags[..j])
      {
        exitTagSet := exitTagSet + {a.exitNodeTags[j]};
        assert a.exitNodeTags[..j + 1] == a.exitNodeTags[..j] + [a.exitNodeTags[j]];
      }
      assert a.exitNodeTags[..|a.exitNodeTags|] == a.exitNodeTags;
    }
    assert approvers[..|approvers|] == approvers;
  }

  ghost function RouteSet(routes: seq<Route>): set<Route> {
    set r | r in routes
  }

  lemma RouteSetAppend(routes: seq<Route>, j: nat)
    requires j < |routes|
    ensures RouteSet(routes[..j + 1]) == RouteSet(routes[..j]) + {routes[j]}
  {
    assert routes[..j + 1] == routes[..j] + [routes[j]];
  }

  lemma EntriesAppend(approvers: seq<ApproverSpec>, a: ApproverSpec)
    ensures RoutesOf(approvers + [a]) == RoutesOf(approvers) + RouteSet(a.routes)
    ensures ExitTags(approvers + [a]) == ExitTags(approvers) + Elements(a.exitNodeTags)
  {
    assert forall x :: x in approvers + [a] <==> x in approvers || x == a;
    assert a in approvers + [a];
  }

  /** Every list of the merged routes sorted, the CIDRs visited in any order. */
  method SortRoutes(routes: map<string, seq<string>>, ghost all: set<Route>) returns (table: map<string, Json>)
    requires Merged(routes, all)
    ensures table == RouteTable(all)
  {
    table := map[];
    var todo := routes.Keys;
    while todo != {}
      invariant todo <= routes.Keys
      invariant table.Keys == routes.Keys - todo
      invariant forall c | c in table :: table[c] == StringList(Canonical(TagsFor(all, c)))
    {
      var cidr :| cidr in todo;
      SortedDistinctIsCanonical(routes[cidr]);
      table := table[cidr := StringList(Sorted(routes[cidr]))];
      todo := todo - {cidr};
    }
  }

  /** The tag owners, each list sorted and compacted, the tags visited in any order. */
  method CanonicalOwners(tagOwners: map<string, seq<string>>) returns (owners: map<string, Json>)
    ensures owners == OwnerTable(tagOwners)
  {
    owners := map[];
    var todo := tagOwners.Keys;
    while todo != {}
      invariant todo <= tagOwners.Keys
      invariant owners.Keys == tagOwners.Keys - todo
      invariant forall tag | tag in owners :: owners[tag] == StringList(Canonical(Elements(tagOwners[tag])))
    {
      var tag :| tag in todo;
      SortedCompactedIsCanonical(tagOwners[tag]);
      owners := owners[tag := StringList(Compacted(Sorted(tagOwners[tag])))];
      todo := todo - {tag};
    }
  }

  /** A set's elements in a slice, in the order the map of exit tags happens to yield them. */
  method Collect(tags: set<string>) returns (s: seq<string>)
    ensures NoDuplicates(s) && Elements(s) == tags
  {
    s := [];
    var todo := tags;
    while todo != {}
      invariant todo <= tags
      invariant NoDuplicates(s) && Elements(s) == tags - todo
    {
      var t :| t in todo;
      assert t !in Elements(s);
      ghost var before := s;
      s := s + [t];
      todo := todo - {t};
      assert Elements(s) == Elements(before) + {t};
    }
  }

  method BuildPolicyDocument(base: Option<AclPolicy>, approvers: seq<ApproverSpec>) returns (r: Result<Document>)
    ensures r == PolicyDocument(base, approvers)
  {
    var parsed := ParseInlinePolicy(if base.Some? then base.value.inlineText else Blank);
    if parsed.Err? {
      return Err;
    }
    var doc := parsed.value;
    if base.Some? && |base.value.tagOwners| > 0 {
      var owners := CanonicalOwners(base.value.tagOwners);
      doc := doc[TAG_OWNERS := Object(owners)];
    }
    var routes, exitTagSet := MergeApprovers(approvers);
    EmptyCidrs(RoutesOf(approvers));
    if |routes| > 0 || |exitTagSet| > 0 {
      var section := BuildSection(routes, exitTagSet, RoutesOf(approvers));
      doc := doc[AUTO_APPROVERS := Object(section)];
    }
    r := Ok(doc);
  }

  method BuildSection(routes: map<string, seq<string>>, exitTagSet: set<string>, ghost all: set<Route>)
    returns (section: map<string, Json>)
    requires Merged(routes, all)
    ensures section == Section(all, exitTagSet)
  {
    section := map[];
    EmptyCidrs(all);
    if |routes| > 0 {
      var table := SortRoutes(routes, all);
      section := section[ROUTES := Object(table)];
    }
    if |exitTagSet| > 0 {
      var exit := Collect(exitTagSet);
      SortedDistinctIsCanonical(exit);
      section := section[EXIT_NODE := StringList(Sorted(exit))];
    }
  }

  // ---------- Reading a pushed document ----------

  /** The strings a JSON value lists; `null` lists none. */
  function Names(j: Json): Option<seq<string>> {
    match j
    case Null => Some([])
    case List(items) =>
      if forall i | 0 <= i < |items| :: items[i].Text?
      then Some(Strip(items)) else None
    case _ => None
  }

  function Strip(items: seq<Json>): seq<string>
    requires forall i | 0 <= i < |items| :: items[i].Text?
  {
    if items == [] then [] else [items[0].s] + Strip(items[1..])
  }

  lemma NamesOfStringList(s: seq<string>)
    ensures Names(StringList(s)) == Some(s)
  {
    StripOfTexts(s);
  }

  lemma {:induction false} StripOfTexts(s: seq<string>)
    ensures |Texts(s)| == |s| && forall i | 0 <= i < |s| :: Texts(s)[i].Text?
    ensures Strip(Texts(s)) == s
  {
    if s != [] {
      StripOfTexts(s[1..]);
      var t := Texts(s);
      assert t[1..] == Texts(s[1..]);
      assert forall i | 1 <= i < |s| :: t[i] == t[1..][i - 1];
      assert s == [s[0]] + s[1..];
    }
  }

  /** The fields of the object under `key`, none if there is no such object. */
  function FieldsAt(doc: Document, key: string): Document {
    if key in doc && doc[key].Object? then doc[key].fields else map[]
  }

  function RoutesIn(doc: Document): Document {
    FieldsAt(FieldsAt(doc, AUTO_APPROVERS), ROUTES)
  }

  function ListedAt(doc: Document, key: string): seq<string> {
    if key in doc && Names(doc[key]).Some? then Names(doc[key]).value else []
  }

  function ExitNodeIn(doc: Document): seq<string> {
    ListedAt(FieldsAt(doc, AUTO_APPROVERS), EXIT_NODE)
  }

  ghost predicate NamesCidr(approvers: seq<ApproverSpec>, cidr: string) {
    exists a, r :: a in approvers && r in a.routes && r.cidr == cidr
  }

  ghost predicate Approves(approvers: seq<ApproverSpec>, cidr: string, tag: string) {
    exists a, r :: a in approvers && r in a.routes && r.cidr == cidr && tag in r.tags
  }

  ghost predicate ApprovesExit(approvers: seq<ApproverSpec>, tag: string) {
    exists a :: a in approvers && tag in a.exitNodeTags
  }

  ghost predicate HasEntries(approvers: seq<ApproverSpec>) {
    exists a :: a in approvers && (a.routes != [] || a.exitNodeTags != [])
  }

  /** The section of a pushed document is the operator's: somebody has entries, or the inline base has no such key. */
  ghost predicate OwnsSection(base: Option<AclPolicy>, approvers: seq<ApproverSpec>) {
    && (base.Some? ==> Readable(base.value.inlineText))
    && (HasEntries(approvers) || base.None? || !Supplies(base.value.inlineText, AUTO_APPROVERS))
  }

  lemma EntriesAsSets(approvers: seq<ApproverSpec>, c: string, t: string)
    ensures c in Cidrs(RoutesOf(approvers)) <==> NamesCidr(approvers, c)
    ensures t in TagsFor(RoutesOf(approvers), c) <==> Approves(approvers, c, t)
    ensures t in ExitTags(approvers) <==> ApprovesExit(approvers, t)
  {
    if NamesCidr(approvers, c) {
      var a, r :| a in approvers && r in a.routes && r.cidr == c;
      assert r in RoutesOf(approvers);
    }
    if Approves(approvers, c, t) {
      var a, r :| a in approvers && r in a.routes && r.cidr == c && t in r.tags;
      assert r in RoutesOf(approvers);
    }
  }

  lemma HasEntriesAsSets(approvers: seq<ApproverSpec>)
    ensures HasEntries(approvers) <==> RoutesOf(approvers) != {} || ExitTags(approvers) != {}
  {
    if HasEntries(approvers) {
      var a :| a in approvers && (a.routes != [] || a.exitNodeTags != []);
      if a.routes != [] {
        var r := a.routes[0];
        assert r in a.routes && r in RoutesOf(approvers);
      } else {
        var t := a.exitNodeTags[0];
        assert t in a.exitNodeTags && t in ExitTags(approvers);
      }
    }
  }

  lemma DistinctKeys()
    ensures TAG_OWNERS != AUTO_APPROVERS && ROUTES != EXIT_NODE
  {
    assert TAG_OWNERS[0] != AUTO_APPROVERS[0] && ROUTES[0] != EXIT_NODE[0];
  }

  /** Where the sections of a document come from. */
  lemma DocumentParts(base: Option<AclPolicy>, approvers: seq<ApproverSpec>, doc: Document)
    requires PolicyDocument(base, approvers) == Ok(doc)
    ensures HasEntries(approvers) ==>
      FieldsAt(doc, AUTO_APPROVERS) == Section(RoutesOf(approvers), ExitTags(approvers)) && AUTO_APPROVERS in doc
    ensures base.Some? && base.value.tagOwners != map[] ==>
      FieldsAt(doc, TAG_OWNERS) == OwnerTable(base.value.tagOwners)
    ensures !HasEntries(approvers) && AUTO_APPROVERS in doc ==>
      base.Some? && Supplies(base.value.inlineText, AUTO_APPROVERS)
  {
    HasEntriesAsSets(approvers);
    DistinctKeys();
  }

  lemma SectionRoutes(routes: set<Route>, exits: set<string>, c: string, t: string)
    ensures var table := FieldsAt(Section(routes, exits), ROUTES);
      && (c in table <==> c in Cidrs(routes))
      && (c in table ==> Names(table[c]) == Some(Canonical(TagsFor(routes, c))))
      && (t in ListedAt(table, c) <==> t in TagsFor(routes, c))
  {
    DistinctKeys();
    NamesOfStringList(Canonical(TagsFor(routes, c)));
    CanonicalIs(TagsFor(routes, c));
    assert t in TagsFor(routes, c) <==> t in Elements(Canonical(TagsFor(routes, c)));
    if routes == {} {
      assert FieldsAt(Section(routes, exits), ROUTES) == map[];
    } else {
      assert FieldsAt(Section(routes, exits), ROUTES) == RouteTable(routes);
    }
  }

  lemma SectionExits(routes: set<Route>, exits: set<string>, t: string)
    ensures EXIT_NODE in Section(routes, exits) <==> exits != {}
    ensures Increasing(ListedAt(Section(routes, exits), EXIT_NODE))
    ensures t in ListedAt(Section(routes, exits), EXIT_NODE) <==> t in exits
  {
    DistinctKeys();
    NamesOfStringList(Canonical(exits));
    CanonicalIs(exits);
    assert t in exits <==> t in Elements(Canonical(exits));
  }

  /** The auto-approver section of a pushed document lists what the approvers list, sorted, and nothing else. */
  lemma MergeExactness(base: Option<AclPolicy>, approvers: seq<ApproverSpec>, doc: Document, c: string, t: string)
    requires PolicyDocument(base, approvers) == Ok(doc) && HasEntries(approvers)
    ensures c in RoutesIn(doc) <==> NamesCidr(approvers, c)
    ensures c in RoutesIn(doc) ==> Names(RoutesIn(doc)[c]).Some? && Increasing(ListedAt(RoutesIn(doc), c))
    ensures t in ListedAt(RoutesIn(doc), c) <==> Approves(approvers, c, t)
    ensures Increasing(ExitNodeIn(doc)) && (t in ExitNodeIn(doc) <==> ApprovesExit(approvers, t))
    ensures EXIT_NODE in FieldsAt(doc, AUTO_APPROVERS) <==> exists x :: ApprovesExit(approvers, x)
  {
    var routes, exits := RoutesOf(approvers), ExitTags(approvers);
    DocumentParts(base, approvers, doc);
    EntriesAsSets(approvers, c, t);
    SectionRoutes(routes, exits, c, t);
    SectionExits(routes, exits, t);
    CanonicalIs(TagsFor(routes, c));
    if x :| x in exits {
      EntriesAsSets(approvers, c, x);
    }
    if x :| ApprovesExit(approvers, x) {
      EntriesAsSets(approvers, c, x);
    }
  }

  lemma NullWhenEmpty(s: set<string>)
    ensures StringList(Canonical(s)) == Null <==> s == {}
  {
    CanonicalIs(s);
  }

  /** The section has routes, if somebody names a CIDR, exit tags, if somebody lists one, and nothing else. */
  lemma SectionShape(base: Option<AclPolicy>, approvers: seq<ApproverSpec>, doc: Document, key: string, c: string)
    requires PolicyDocument(base, approvers) == Ok(doc) && HasEntries(approvers)
    ensures key in FieldsAt(doc, "autoApprovers")
        <==> (key == "routes" && exists x :: NamesCidr(approvers, x)) || (key == "exitNode" && exists x :: ApprovesExit(approvers, x))
    ensures c in RoutesIn(doc) ==> (RoutesIn(doc)[c] == Null <==> forall x :: !Approves(approvers, c, x))
  {
    var routes, exits := RoutesOf(approvers), ExitTags(approvers);
    DocumentParts(base, approvers, doc);
    DistinctKeys();
    EmptyCidrs(routes);
    forall x ensures x in Cidrs(routes) <==> NamesCidr(approvers, x) {
      EntriesAsSets(approvers, x, "");
    }
    forall x ensures x in exits <==> ApprovesExit(approvers, x) {
      EntriesAsSets(approvers, "", x);
    }
    forall x ensures x in TagsFor(routes, c) <==> Approves(approvers, c, x) {
      EntriesAsSets(approvers, c, x);
    }
    NullWhenEmpty(TagsFor(routes, c));
  }

  /** Each tag-owner list is the strictly increasing list of its principals. */
  lemma OwnersExactness(base: AclPolicy, approvers: seq<ApproverSpec>, doc: Document, tag: string)
    requires PolicyDocument(Some(base), approvers) == Ok(doc) && base.tagOwners != map[]
    ensures tag in FieldsAt(doc, TAG_OWNERS) <==> tag in base.tagOwners
    ensures tag in base.tagOwners ==>
      var l := ListedAt(FieldsAt(doc, TAG_OWNERS), tag);
      Increasing(l) && Elements(l) == Elements(base.tagOwners[tag])
    ensures tag in base.tagOwners ==> (FieldsAt(doc, TAG_OWNERS)[tag] == Null <==> base.tagOwners[tag] == [])
  {
    DocumentParts(Some(base), approvers, doc);
    if tag in base.tagOwners {
      NullWhenEmpty(Elements(base.tagOwners[tag]));
      assert base.tagOwners[tag] != [] ==> base.tagOwners[tag][0] in Elements(base.tagOwners[tag]);
      NamesOfStringList(Canonical(Elements(base.tagOwners[tag])));
      CanonicalIs(Elements(base.tagOwners[tag]));
    }
  }

  /** The same tags, and for each the same principals, whatever their order and repetition. */
  ghost predicate SameOwners(a: map<string, seq<string>>, b: map<string, seq<string>>) {
    a.Keys == b.Keys && forall tag | tag in a :: Elements(a[tag]) == Elements(b[tag])
  }

  /** Two bases that differ in their owners alone give the same document exactly when they have the same owners. */
  lemma OwnersAreCanonical(a: AclPolicy, b: AclPolicy, approvers: seq<ApproverSpec>)
    requires a.inlineText == b.inlineText && Readable(a.inlineText)
    requires !Supplies(a.inlineText, TAG_OWNERS) || (a.tagOwners != map[] && b.tagOwners != map[])
    ensures PolicyDocument(Some(a), approvers) == PolicyDocument(Some(b), approvers) <==> SameOwners(a.tagOwners, b.tagOwners)
  {
    if SameOwners(a.tagOwners, b.tagOwners) {
      assert OwnerTable(a.tagOwners) == OwnerTable(b.tagOwners);
      assert a.tagOwners == map[] <==> a.tagOwners.Keys == {};
      assert b.tagOwners == map[] <==> b.tagOwners.Keys == {};
    }
    if PolicyDocument(Some(a), approvers) == PolicyDocument(Some(b), approvers) {
      var doc := PolicyDocument(Some(a), approvers).value;
      OwnersRead(a, approvers, doc);
      OwnersRead(b, approvers, doc);
    }
  }

  /** The owners can be read off a document. */
  lemma OwnersRead(base: AclPolicy, approvers: seq<ApproverSpec>, doc: Document)
    requires PolicyDocument(Some(base), approvers) == Ok(doc)
    requires !Supplies(base.inlineText, TAG_OWNERS) || base.tagOwners != map[]
    ensures FieldsAt(doc, TAG_OWNERS).Keys == base.tagOwners.Keys
    ensures forall tag | tag in base.tagOwners ::
      Elements(base.tagOwners[tag]) == Elements(ListedAt(FieldsAt(doc, TAG_OWNERS), tag))
  {
    DistinctKeys();
    if base.tagOwners != map[] {
      forall tag ensures tag in FieldsAt(doc, TAG_OWNERS) <==> tag in base.tagOwners {
        OwnersExactness(base, approvers, doc, tag);
      }
      forall tag | tag in base.tagOwners
        ensures Elements(base.tagOwners[tag]) == Elements(ListedAt(FieldsAt(doc, TAG_OWNERS), tag)) {
        OwnersExactness(base, approvers, doc, tag);
      }
    }
  }

  ghost predicate SameEntries(a: seq<ApproverSpec>, b: seq<ApproverSpec>) {
    forall c, t :: EntriesAgree(a, b, c, t)
  }

  ghost predicate EntriesAgree(a: seq<ApproverSpec>, b: seq<ApproverSpec>, c: string, t: string) {
    && (NamesCidr(a, c) <==> NamesCidr(b, c))
    && (Approves(a, c, t) <==> Approves(b, c, t))
    && (ApprovesExit(a, t) <==> ApprovesExit(b, t))
  }

  /**
   The document is a canonical form of the entries: two lists of approvers give the same document
   exactly when they have the same entries, whatever their order and repetition. An inline base with
   a section of its own can stand in for an operator section, so it is excluded when one list is empty.
   */
  lemma DocumentIsCanonical(base: Option<AclPolicy>, a: seq<ApproverSpec>, b: seq<ApproverSpec>)
    requires OwnsSection(base, a) && OwnsSection(base, b)
    ensures PolicyDocument(base, a) == PolicyDocument(base, b) <==> SameEntries(a, b)
  {
    if SameEntries(a, b) {
      SameSets(a, b);
    }
    if PolicyDocument(base, a) == PolicyDocument(base, b) {
      SameDocuments(base, a, b, PolicyDocument(base, a).value);
    }
  }

  lemma SameDocuments(base: Option<AclPolicy>, a: seq<ApproverSpec>, b: seq<ApproverSpec>, doc: Document)
    requires PolicyDocument(base, a) == Ok(doc) == PolicyDocument(base, b)
    requires OwnsSection(base, a) && OwnsSection(base, b)
    ensures SameEntries(a, b)
  {
    DocumentParts(base, a, doc);
    DocumentParts(base, b, doc);
    forall c, t ensures EntriesAgree(a, b, c, t) {
      if HasEntries(a) {
        MergeExactness(base, a, doc, c, t);
        MergeExactness(base, b, doc, c, t);
      }
    }
  }

  lemma SameSets(a: seq<ApproverSpec>, b: seq<ApproverSpec>)
    requires SameEntries(a, b)
    ensures forall base :: PolicyDocument(base, a) == PolicyDocument(base, b)
  {
    var r, q := RoutesOf(a), RoutesOf(b);
    forall c ensures c in Cidrs(r) <==> c in Cidrs(q) {
      assert EntriesAgree(a, b, c, "");
      EntriesAsSets(a, c, "");
      EntriesAsSets(b, c, "");
    }
    forall c, t ensures t in TagsFor(r, c) <==> t in TagsFor(q, c) {
      assert EntriesAgree(a, b, c, t);
      EntriesAsSets(a, c, t);
      EntriesAsSets(b, c, t);
    }
    forall t ensures t in ExitTags(a) <==> t in ExitTags(b) {
      assert EntriesAgree(a, b, "", t);
      EntriesAsSets(a, "", t);
      EntriesAsSets(b, "", t);
    }
    SameTables(r, q);
    assert ExitTags(a) == ExitTags(b);
  }

  lemma SameTables(r: set<Route>, q: set<Route>)
    requires forall c :: c in Cidrs(r) <==> c in Cidrs(q)
    requires forall c, t :: t in TagsFor(r, c) <==> t in TagsFor(q, c)
    ensures RouteTable(r) == RouteTable(q)
    ensures r == {} <==> q == {}
  {
    forall c ensures TagsFor(r, c) == TagsFor(q, c) {
    }
    EmptyCidrs(r);
    EmptyCidrs(q);
    assert Cidrs(r) == Cidrs(q);
  }

  lemma EmptyCidrs(routes: set<Route>)
    ensures routes == {} <==> Cidrs(routes) == {}
  {
    if r :| r in routes {
      assert r.cidr in Cidrs(routes);
    }
  }

  /** A section the operator owns lists what the approvers list, also when that is nothing. */
  lemma EntriesExactness(base: Option<AclPolicy>, approvers: seq<ApproverSpec>, doc: Document, c: string, t: string)
    requires PolicyDocument(base, approvers) == Ok(doc) && OwnsSection(base, approvers)
    ensures c in RoutesIn(doc) <==> NamesCidr(approvers, c)
    ensures t in ListedAt(RoutesIn(doc), c) <==> Approves(approvers, c, t)
    ensures t in ExitNodeIn(doc) <==> ApprovesExit(approvers, t)
  {
    if HasEntries(approvers) {
      MergeExactness(base, approvers, doc, c, t);
    } else {
      DocumentParts(base, approvers, doc);
    }
  }

  /** And otherwise the inline base's own section passes through as it is. */
  lemma InlineSectionStandsIn(base: Option<AclPolicy>, approvers: seq<ApproverSpec>, doc: Document)
    requires PolicyDocument(base, approvers) == Ok(doc) && !OwnsSection(base, approvers)
    ensures base.Some? && base.value.inlineText.Parsed?
    ensures AUTO_APPROVERS in doc && AUTO_APPROVERS in base.value.inlineText.doc
    ensures doc[AUTO_APPROVERS] == base.value.inlineText.doc[AUTO_APPROVERS]
  {
    FailsExactly(base, approvers);
    OtherKeysPassThrough(base, approvers, doc, AUTO_APPROVERS);
  }

  /** Merging is a union: a concatenation lists what its parts list. */
  lemma MergeIsUnion(base: Option<AclPolicy>, a: seq<ApproverSpec>, b: seq<ApproverSpec>, ab: Document, da: Document,
      db: Document, c: string, t: string)
    requires OwnsSection(base, a) && OwnsSection(base, b)
    requires PolicyDocument(base, a) == Ok(da) && PolicyDocument(base, b) == Ok(db)
    requires PolicyDocument(base, a + b) == Ok(ab)
    ensures c in RoutesIn(ab) <==> c in RoutesIn(da) || c in RoutesIn(db)
    ensures t in ListedAt(RoutesIn(ab), c) <==> t in ListedAt(RoutesIn(da), c) || t in ListedAt(RoutesIn(db), c)
    ensures t in ExitNodeIn(ab) <==> t in ExitNodeIn(da) || t in ExitNodeIn(db)
  {
    EntriesOfConcat(a, b, c, t);
    EntriesExactness(base, a, da, c, t);
    EntriesExactness(base, b, db, c, t);
    EntriesExactness(base, a + b, ab, c, t);
  }

  lemma EntriesOfConcat(a: seq<ApproverSpec>, b: seq<ApproverSpec>, c: string, t: string)
    ensures NamesCidr(a + b, c) <==> NamesCidr(a, c) || NamesCidr(b, c)
    ensures Approves(a + b, c, t) <==> Approves(a, c, t) || Approves(b, c, t)
    ensures ApprovesExit(a + b, t) <==> ApprovesExit(a, t) || ApprovesExit(b, t)
    ensures HasEntries(a + b) <==> HasEntries(a) || HasEntries(b)
  {
    assert forall x :: x in a + b <==> x in a || x in b;
  }

  /** Dropping one approver, be it the last, removes a tag from a CIDR exactly when no other approver lists it. */
  lemma DroppingRemovesOnlyItsOwn(base: Option<AclPolicy>, before: seq<ApproverSpec>, a: ApproverSpec,
      after: seq<ApproverSpec>, full: Document, rest: Document, c: string, t: string)
    requires OwnsSection(base, before + after)
    requires PolicyDocument(base, before + [a] + after) == Ok(full)
    requires PolicyDocument(base, before + after) == Ok(rest)
    ensures t in ListedAt(RoutesIn(full), c) && t !in ListedAt(RoutesIn(rest), c)
        <==> Approves([a], c, t) && !Approves(before + after, c, t)
    ensures t in ListedAt(RoutesIn(rest), c) ==> t in ListedAt(RoutesIn(full), c)
    ensures t in ExitNodeIn(full) && t !in ExitNodeIn(rest) <==> t in a.exitNodeTags && !ApprovesExit(before + after, t)
  {
    EntriesOfConcat(before, after, c, t);
    EntriesOfConcat(before, [a], c, t);
    EntriesOfConcat(before + [a], after, c, t);
    EntriesExactness(base, before + [a] + after, full, c, t);
    EntriesExactness(base, before + after, rest, c, t);
  }

  /**
   Said of the input alone: whatever the user's inline policy has besides the two keys of the operator, and each of
   the two when the operator has no values for it, is in the pushed document as it was, and nothing else is.
   */
  lemma OtherKeysPassThrough(base: Option<AclPolicy>, approvers: seq<ApproverSpec>, doc: Document, key: string)
    requires PolicyDocument(base, approvers) == Ok(doc)
    requires key == "tagOwners" ==> base.None? || base.value.tagOwners == map[]
    requires key == "autoApprovers" ==> !HasEntries(approvers)
    ensures key in doc <==> base.Some? && base.value.inlineText.Parsed? && key in base.value.inlineText.doc
    ensures key in doc ==> doc[key] == base.value.inlineText.doc[key]
  {
    HasEntriesAsSets(approvers);
    DistinctKeys();
  }

  /** There is no document exactly when there is a text that is no JSON object. */
  lemma FailsExactly(base: Option<AclPolicy>, approvers: seq<ApproverSpec>)
    ensures PolicyDocument(base, approvers).Err?
        <==> base.Some? && (base.value.inlineText.NotHuJson? || base.value.inlineText.NotAnObject?)
  {
  }

  /** A pushed document used as the inline base, with the same owners and approvers, is pushed again unchanged. */
  lemma RebuildIsIdempotent(base: AclPolicy, approvers: seq<ApproverSpec>, doc: Document)
    requires PolicyDocument(Some(base), approvers) == Ok(doc)
    ensures PolicyDocument(Some(base.(inlineText := Parsed(doc))), approvers) == Ok(doc)
  {
    DistinctKeys();
    assert WithSection(WithOwners(doc, Some(base)), RoutesOf(approvers), ExitTags(approvers)) == doc;
  }
}
