/**
 `spec.config`: the view the operator reads from it and the config file it renders. A JSON object is its
 text's key-value pairs in order; decoding into a struct matches keys up to case, decoding into a map does not.
 */
module Config {
  import opened Wrappers
  import opened Strings

  /** A number is its literal and the literal that Go prints for the float64 nearest to it. */
  datatype Json = Null | Bool(b: bool) | Number(literal: string, nearest: string) | Text(s: string)
    | List(items: seq<Json>) | Object(entries: seq<Entry>)

  datatype Entry = Entry(key: string, value: Json)

  /** The raw bytes: absent, not JSON or not an object, or an object. */
  datatype Raw = Absent | Malformed | Doc(entries: seq<Entry>)

  datatype View = View(serverUrl: string, listenAddr: string, metricsListenAddr: string, grpcListenAddr: string,
                       unixSocket: string, policyMode: string)

  const SERVER_URL := "server_url"
  const LISTEN_ADDR := "listen_addr"
  const METRICS_LISTEN_ADDR := "metrics_listen_addr"
  const GRPC_LISTEN_ADDR := "grpc_listen_addr"
  const UNIX_SOCKET := "unix_socket"
  const POLICY := "policy"
  const MODE := "mode"

  const DEFAULT_LISTEN_ADDR := "0.0.0.0:8080"
  const DEFAULT_METRICS_LISTEN_ADDR := "0.0.0.0:9090"
  const DEFAULT_GRPC_LISTEN_ADDR := "0.0.0.0:50443"
  const DEFAULT_UNIX_SOCKET := "/var/run/headscale/headscale.sock"
  const DEFAULT_POLICY_MODE := "file"

  /** Go's case folding on the letters of the names above: besides the ASCII cases, long s and the Kelvin sign. */
  function Fold(c: char): char {
    if 'A' <= c <= 'Z' then (c as int + 32) as char
    else if c == '\U{17F}' then 's'
    else if c == '\U{212A}' then 'k'
    else c
  }

  predicate Matches(key: string, name: string) {
    |key| == |name| && forall i | 0 <= i < |key| :: Fold(key[i]) == name[i]
  }

  function FirstNonEmpty(v: string, fallback: string): string {
    if v == "" then fallback else v
  }

  /** Decoding a string field: pairs in order, each matching string overwrites, other types leave the field alone. */
  function DecodeText(field: string, entries: seq<Entry>, name: string): string
    decreases |entries|
  {
    if entries == [] then field
    else
      var e := entries[0];
      DecodeText(if Matches(e.key, name) && e.value.Text? then e.value.s else field, entries[1..], name)
  }

  /** Decoding the nested policy struct, again in place. */
  function DecodeMode(mode: string, entries: seq<Entry>): string
    decreases |entries|
  {
    if entries == [] then mode
    else
      var e := entries[0];
      DecodeMode(if Matches(e.key, POLICY) && e.value.Object? then DecodeText(mode, e.value.entries, MODE) else mode,
        entries[1..])
  }

  function EntriesOf(raw: Raw): seq<Entry> {
    if raw.Doc? then raw.entries else []
  }

  function ParseConfigView(raw: Raw): View {
    var es := EntriesOf(raw);
    View(DecodeText("", es, SERVER_URL),
      FirstNonEmpty(DecodeText("", es, LISTEN_ADDR), DEFAULT_LISTEN_ADDR),
      FirstNonEmpty(DecodeText("", es, METRICS_LISTEN_ADDR), DEFAULT_METRICS_LISTEN_ADDR),
      FirstNonEmpty(DecodeText("", es, GRPC_LISTEN_ADDR), DEFAULT_GRPC_LISTEN_ADDR),
      FirstNonEmpty(DecodeText("", es, UNIX_SOCKET), DEFAULT_UNIX_SOCKET),
      FirstNonEmpty(DecodeMode("", es), DEFAULT_POLICY_MODE))
  }

  // ---------- Decoding into a map and encoding it ----------

  type Document = map<string, Json>

  /** Decoding into `map[string]any`: the last pair of a key wins, and nested objects become maps too. */
  ghost function AsMap(entries: seq<Entry>): Document {
    if entries == [] then map[]
    else
      var last := entries[|entries| - 1];
      AsMap(entries[..|entries| - 1])[last.key := Normal(last.value)]
  }

  /** A value decoded into `any` and encoded again: objects have their keys once, in order, and numbers are rounded. */
  ghost function Normal(j: Json): Json {
    match j
    case Number(_, nearest) => Number(nearest, nearest)
    case List(items) => List(NormalItems(items))
    case Object(entries) => Object(Encode(AsMap(entries)))
    case _ => j
  }

  ghost function NormalItems(items: seq<Json>): seq<Json> {
    if items == [] then [] else NormalItems(items[..|items| - 1]) + [Normal(items[|items| - 1])]
  }

  /** Encoding a map writes its keys in order. */
  ghost function Encode(doc: Document): seq<Entry> {
    EncodeKeys(doc, Canonical(doc.Keys))
  }

  ghost function EncodeKeys(doc: Document, keys: seq<string>): seq<Entry>
    decreases |keys|
  {
    if keys == [] then []
    else (if keys[0] in doc then [Entry(keys[0], doc[keys[0]])] else []) + EncodeKeys(doc, keys[1..])
  }

  ghost predicate IsNormal(doc: Document) {
    forall k | k in doc :: Normal(doc[k]) == doc[k]
  }

  predicate Wiring(key: string) {
    key == LISTEN_ADDR || key == METRICS_LISTEN_ADDR || key == GRPC_LISTEN_ADDR || key == UNIX_SOCKET
  }

  ghost function Wire(doc: Document, view: View): Document {
    doc[LISTEN_ADDR := Text(view.listenAddr)]
       [METRICS_LISTEN_ADDR := Text(view.metricsListenAddr)]
       [GRPC_LISTEN_ADDR := Text(view.grpcListenAddr)]
       [UNIX_SOCKET := Text(view.unixSocket)]
  }

  /** `renderConfigYAML`, up to the text of the rendered map. */
  ghost function RenderConfig(raw: Raw, view: View): Result<Document> {
    if raw.Malformed? then Err else Ok(Wire(AsMap(EntriesOf(raw)), view))
  }

  // ---------- Decoding picks the last match ----------

  predicate Offers(e: Entry, name: string) {
    Matches(e.key, name) && e.value.Text?
  }

  predicate OffersMode(e: Entry) {
    Matches(e.key, POLICY) && e.value.Object?
  }

  lemma {:induction false} DecodeTextPicks(field: string, entries: seq<Entry>, name: string)
    ensures var r := DecodeText(field, entries, name);
      if exists e :: e in entries && Offers(e, name)
      then exists e :: e in entries && Offers(e, name) && e.value.s == r
      else r == field
    decreases |entries|
  {
    if entries != [] {
      var e := entries[0];
      var rest := entries[1..];
      DecodeTextPicks(if Offers(e, name) then e.value.s else field, rest, name);
      assert forall x :: x in entries <==> x == e || x in rest;
    }
  }

  /** If every offer is the same, that is what is decoded. */
  lemma DecodeTextAgreed(field: string, entries: seq<Entry>, name: string, e: Entry)
    requires e in entries && Offers(e, name)
    requires forall x | x in entries && Offers(x, name) :: x.value.s == e.value.s
    ensures DecodeText(field, entries, name) == e.value.s
  {
    DecodeTextPicks(field, entries, name);
  }

  lemma {:induction false} DecodeModeAgreed(mode: string, entries: seq<Entry>, nested: seq<Entry>)
    requires forall e | e in entries && OffersMode(e) :: e.value.entries == nested
    ensures DecodeMode(mode, entries) ==
      if exists e :: e in entries && OffersMode(e) then DecodeText(mode, nested, MODE) else mode
    decreases |entries|
  {
    if entries != [] {
      var e := entries[0];
      var rest := entries[1..];
      assert forall x :: x in entries <==> x == e || x in rest;
      var next := if OffersMode(e) then DecodeText(mode, nested, MODE) else mode;
      DecodeModeAgreed(next, rest, nested);
      DecodeTwice(mode, nested);
    }
  }

  lemma DecodeTwice(mode: string, nested: seq<Entry>)
    ensures DecodeText(DecodeText(mode, nested, MODE), nested, MODE) == DecodeText(mode, nested, MODE)
  {
    DecodeTextPicks(mode, nested, MODE);
    if exists e :: e in nested && Offers(e, MODE) {
      DecodeFromAny(mode, DecodeText(mode, nested, MODE), nested, MODE);
    }
  }

  /** Where there is an offer, the former value of the field does not matter. */
  lemma {:induction false} DecodeFromAny(a: string, b: string, entries: seq<Entry>, name: string)
    requires exists e :: e in entries && Offers(e, name)
    ensures DecodeText(a, entries, name) == DecodeText(b, entries, name)
    decreases |entries|
  {
    var e, rest := entries[0], entries[1..];
    assert forall x :: x in entries <==> x == e || x in rest;
    if !Offers(e, name) {
      DecodeFromAny(a, b, rest, name);
    }
  }

  // ---------- Maps and their encodings ----------

  lemma {:induction false} EncodeKeysMembers(doc: Document, keys: seq<string>, e: Entry)
    ensures e in EncodeKeys(doc, keys) <==> e.key in keys && e.key in doc && doc[e.key] == e.value
    decreases |keys|
  {
    if keys != [] {
      EncodeKeysMembers(doc, keys[1..], e);
      assert e.key in keys <==> e.key == keys[0] || e.key in keys[1..];
    }
  }

  lemma EncodeMembers(doc: Document, e: Entry)
    ensures e in Encode(doc) <==> e.key in doc && doc[e.key] == e.value
  {
    EncodeKeysMembers(doc, Canonical(doc.Keys), e);
    CanonicalIs(doc.Keys);
    assert e.key in Canonical(doc.Keys) <==> e.key in Elements(Canonical(doc.Keys));
  }

  /** Decoding pairs that spell out a normal map gives that map. */
  lemma {:induction false} AsMapOfPairs(doc: Document, entries: seq<Entry>)
    requires IsNormal(doc) && forall e | e in entries :: e.key in doc && doc[e.key] == e.value
    ensures forall k | k in AsMap(entries) :: k in doc && AsMap(entries)[k] == doc[k]
    ensures forall e | e in entries :: e.key in AsMap(entries)
  {
    if entries != [] {
      var front, last := entries[..|entries| - 1], entries[|entries| - 1];
      assert last in entries && forall e :: e in entries <==> e in front || e == last;
      AsMapOfPairs(doc, front);
    }
  }

  lemma DecodeUndoesEncode(doc: Document)
    requires IsNormal(doc)
    ensures AsMap(Encode(doc)) == doc
  {
    forall e ensures e in Encode(doc) <==> e.key in doc && doc[e.key] == e.value {
      EncodeMembers(doc, e);
    }
    AsMapOfPairs(doc, Encode(doc));
    forall k | k in doc ensures k in AsMap(Encode(doc)) {
      assert Entry(k, doc[k]) in Encode(doc);
    }
  }

  /** Normalizing again changes nothing. */
  lemma {:induction false} NormalIsNormal(j: Json)
    ensures Normal(Normal(j)) == Normal(j)
    decreases j
  {
    match j {
      case List(items) => NormalItemsAreNormal(items);
      case Object(entries) =>
        AsMapIsNormal(entries);
        DecodeUndoesEncode(AsMap(entries));
      case _ =>
    }
  }

  lemma {:induction false} NormalItemsAreNormal(items: seq<Json>)
    ensures NormalItems(NormalItems(items)) == NormalItems(items)
    decreases items
  {
    if items != [] {
      var front, last := items[..|items| - 1], items[|items| - 1];
      NormalItemsAreNormal(front);
      NormalIsNormal(last);
      var n := NormalItems(items);
      assert n[..|n| - 1] == NormalItems(front) && n[|n| - 1] == Normal(last);
    }
  }

  lemma {:induction false} AsMapIsNormal(entries: seq<Entry>)
    ensures IsNormal(AsMap(entries))
    decreases entries
  {
    if entries != [] {
      AsMapIsNormal(entries[..|entries| - 1]);
      NormalIsNormal(entries[|entries| - 1].value);
    }
  }

  lemma RenderedIsNormal(raw: Raw, view: View, doc: Document)
    requires RenderConfig(raw, view) == Ok(doc)
    ensures IsNormal(doc)
  {
    AsMapIsNormal(EntriesOf(raw));
  }

  // ---------- What the view says ----------

  /** The last pair that spells the field and holds a string holds this one. */
  ghost predicate SaysLast(entries: seq<Entry>, name: string, v: string) {
    exists i | 0 <= i < |entries| && Matches(entries[i].key, name) && entries[i].value == Text(v) ::
      forall j | i < j < |entries| :: !(Matches(entries[j].key, name) && entries[j].value.Text?)
  }

  ghost predicate SaysNothing(entries: seq<Entry>, name: string) {
    forall e | e in entries && Matches(e.key, name) :: !e.value.Text?
  }

  /** The pairs say this of the field: what the last string says, or this default if that is empty or there is none. */
  ghost predicate IsSaid(entries: seq<Entry>, name: string, fallback: string, v: string) {
    || (v != "" && SaysLast(entries, name, v))
    || (v == fallback && (SaysLast(entries, name, "") || SaysNothing(entries, name)))
  }

  /** The pairs of all objects under the policy, in order. */
  function PolicyEntries(entries: seq<Entry>): seq<Entry> {
    if entries == [] then []
    else
      var e := entries[0];
      (if Matches(e.key, "policy") && e.value.Object? then e.value.entries else []) + PolicyEntries(entries[1..])
  }

  lemma {:induction false} DecodesLast(field: string, entries: seq<Entry>, name: string)
    ensures var r := DecodeText(field, entries, name); SaysLast(entries, name, r) || (r == field && SaysNothing(entries, name))
    decreases |entries|
  {
    if entries != [] {
      var e, rest := entries[0], entries[1..];
      var next := if Matches(e.key, name) && e.value.Text? then e.value.s else field;
      DecodesLast(next, rest, name);
      var r := DecodeText(field, entries, name);
      if SaysLast(rest, name, r) {
        var i :| 0 <= i < |rest| && Matches(rest[i].key, name) && rest[i].value == Text(r)
          && forall j | i < j < |rest| :: !(Matches(rest[j].key, name) && rest[j].value.Text?);
        assert entries[i + 1] == rest[i];
        forall j | i + 1 < j < |entries| ensures !(Matches(entries[j].key, name) && entries[j].value.Text?) {
          assert entries[j] == rest[j - 1];
        }
      } else if Matches(e.key, name) && e.value.Text? {
        assert entries[0].value == Text(r);
        forall j | 0 < j < |entries| ensures !(Matches(entries[j].key, name) && entries[j].value.Text?) {
          assert entries[j] == rest[j - 1] && rest[j - 1] in rest;
        }
      }
    }
  }

  lemma {:induction false} DecodeJoined(field: string, front: seq<Entry>, back: seq<Entry>, name: string)
    ensures DecodeText(field, front + back, name) == DecodeText(DecodeText(field, front, name), back, name)
    decreases |front|
  {
    if front == [] {
      assert front + back == back;
    } else {
      assert (front + back)[1..] == front[1..] + back;
      var e := front[0];
      DecodeJoined(if Matches(e.key, name) && e.value.Text? then e.value.s else field, front[1..], back, name);
    }
  }

  lemma {:induction false} ModeIsDecodedInOrder(mode: string, entries: seq<Entry>)
    ensures DecodeMode(mode, entries) == DecodeText(mode, PolicyEntries(entries), "mode")
    decreases |entries|
  {
    if entries != [] {
      var e, rest := entries[0], entries[1..];
      var nested := if Matches(e.key, "policy") && e.value.Object? then e.value.entries else [];
      var next := if Matches(e.key, POLICY) && e.value.Object? then DecodeText(mode, e.value.entries, MODE) else mode;
      ModeIsDecodedInOrder(next, rest);
      DecodeJoined(mode, nested, PolicyEntries(rest), "mode");
    }
  }

  lemma FirstNonEmptyIsSaid(entries: seq<Entry>, name: string, fallback: string)
    ensures IsSaid(entries, name, fallback, FirstNonEmpty(DecodeText("", entries, name), fallback))
  {
    DecodesLast("", entries, name);
  }

  /** Of every field the view says what the config says last, and else the default. */
  lemma ViewSaysWhatTheConfigSays(raw: Raw)
    ensures var view, es := ParseConfigView(raw), if raw.Doc? then raw.entries else [];
      && IsSaid(es, "server_url", "", view.serverUrl)
      && IsSaid(es, "listen_addr", "0.0.0.0:8080", view.listenAddr)
      && IsSaid(es, "metrics_listen_addr", "0.0.0.0:9090", view.metricsListenAddr)
      && IsSaid(es, "grpc_listen_addr", "0.0.0.0:50443", view.grpcListenAddr)
      && IsSaid(es, "unix_socket", "/var/run/headscale/headscale.sock", view.unixSocket)
      && IsSaid(PolicyEntries(es), "mode", "file", view.policyMode)
  {
    hide IsSaid;
    var es := EntriesOf(raw);
    FirstNonEmptyIsSaid(es, SERVER_URL, "");
    FirstNonEmptyIsSaid(es, LISTEN_ADDR, DEFAULT_LISTEN_ADDR);
    FirstNonEmptyIsSaid(es, METRICS_LISTEN_ADDR, DEFAULT_METRICS_LISTEN_ADDR);
    FirstNonEmptyIsSaid(es, GRPC_LISTEN_ADDR, DEFAULT_GRPC_LISTEN_ADDR);
    FirstNonEmptyIsSaid(es, UNIX_SOCKET, DEFAULT_UNIX_SOCKET);
    ModeIsDecodedInOrder("", es);
    FirstNonEmptyIsSaid(PolicyEntries(es), MODE, DEFAULT_POLICY_MODE);
  }

  /** Which keys spell a name of small letters: in any case, and with a long s for s and the Kelvin sign for k. */
  lemma SpelledUpToCase(key: string, name: string)
    requires forall i | 0 <= i < |name| :: 'a' <= name[i] <= 'z' || name[i] == '_'
    ensures Matches(key, name) <==> |key| == |name| && forall i | 0 <= i < |key| ::
      || key[i] == name[i]
      || ('A' <= key[i] <= 'Z' && key[i] as int + 32 == name[i] as int)
      || (key[i] as int == 0x17F && name[i] == 's')
      || (key[i] as int == 0x212A && name[i] == 'k')
  {
  }

  // ---------- What rendering keeps ----------

  /** The last pair with this very key. */
  ghost predicate IsLastOf(entries: seq<Entry>, key: string, i: nat) {
    i < |entries| && entries[i].key == key && forall j | i < j < |entries| :: entries[j].key != key
  }

  lemma LastOfFront(entries: seq<Entry>, key: string, i: nat)
    requires entries != [] && entries[|entries| - 1].key != key
    ensures IsLastOf(entries, key, i) <==> IsLastOf(entries[..|entries| - 1], key, i)
  {
    var front := entries[..|entries| - 1];
    if IsLastOf(front, key, i) {
      forall j | i < j < |entries| ensures entries[j].key != key {
        assert j < |front| ==> front[j] == entries[j];
      }
    }
  }

  lemma {:induction false} LastPairWins(entries: seq<Entry>, key: string)
    ensures key in AsMap(entries) <==> exists i: nat :: IsLastOf(entries, key, i)
    ensures forall i: nat | IsLastOf(entries, key, i) :: key in AsMap(entries) && AsMap(entries)[key] == Normal(entries[i].value)
    decreases |entries|
  {
    if entries != [] {
      var n := |entries| - 1;
      var front := entries[..n];
      LastPairWins(front, key);
      if entries[n].key == key {
        assert IsLastOf(entries, key, n);
        forall i: nat | IsLastOf(entries, key, i) ensures i == n {
        }
      } else {
        forall i: nat ensures IsLastOf(entries, key, i) <==> IsLastOf(front, key, i) {
          LastOfFront(entries, key, i);
        }
      }
    }
  }

  /** Rendering fails only on what is no config, and sets the four keys the operator must agree on. */
  lemma RenderedKeys(raw: Raw, view: View)
    ensures RenderConfig(raw, view).Ok? <==> !raw.Malformed?
    ensures RenderConfig(raw, view).Ok? ==> var doc := RenderConfig(raw, view).value;
      && "listen_addr" in doc && doc["listen_addr"] == Text(view.listenAddr)
      && "metrics_listen_addr" in doc && doc["metrics_listen_addr"] == Text(view.metricsListenAddr)
      && "grpc_listen_addr" in doc && doc["grpc_listen_addr"] == Text(view.grpcListenAddr)
      && "unix_socket" in doc && doc["unix_socket"] == Text(view.unixSocket)
  {
    WireSets(AsMap(EntriesOf(raw)), view);
  }

  /** Every other key passes through with the value of its last pair, and no key is added. */
  lemma OtherKeysPassThrough(raw: Raw, view: View, doc: Document, key: string)
    requires RenderConfig(raw, view) == Ok(doc)
    requires key !in {"listen_addr", "metrics_listen_addr", "grpc_listen_addr", "unix_socket"}
    ensures var es := if raw.Doc? then raw.entries else [];
      && (key in doc <==> exists i: nat :: IsLastOf(es, key, i))
      && forall i: nat | IsLastOf(es, key, i) :: doc[key] == Normal(es[i].value)
  {
    LastPairWins(EntriesOf(raw), key);
  }

  /** Rendering a rendered config with the same view gives it back. */
  lemma RenderAgain(raw: Raw, view: View, doc: Document)
    requires RenderConfig(raw, view) == Ok(doc)
    ensures RenderConfig(Doc(Encode(doc)), view) == Ok(doc)
  {
    RenderedIsNormal(raw, view, doc);
    DecodeUndoesEncode(doc);
    WireAgain(AsMap(EntriesOf(raw)), view);
  }

  lemma WireAgain(doc: Document, view: View)
    ensures Wire(Wire(doc, view), view) == Wire(doc, view)
  {
    DistinctWiring();
  }

  lemma DistinctWiring()
    ensures LISTEN_ADDR != METRICS_LISTEN_ADDR && LISTEN_ADDR != GRPC_LISTEN_ADDR && LISTEN_ADDR != UNIX_SOCKET
    ensures METRICS_LISTEN_ADDR != GRPC_LISTEN_ADDR && METRICS_LISTEN_ADDR != UNIX_SOCKET
    ensures GRPC_LISTEN_ADDR != UNIX_SOCKET
  {
    assert |LISTEN_ADDR| == 11 && |METRICS_LISTEN_ADDR| == 19 && |GRPC_LISTEN_ADDR| == 16 && |UNIX_SOCKET| == 11;
    assert LISTEN_ADDR[0] == 'l' && UNIX_SOCKET[0] == 'u';
  }

  // ---------- The view of a rendered config ----------

  /** No two pairs spell the same field. */
  predicate AtMostOne(entries: seq<Entry>, name: string) {
    forall i, j | 0 <= i < j < |entries| :: !(Matches(entries[i].key, name) && Matches(entries[j].key, name))
  }

  predicate Unambiguous(entries: seq<Entry>) {
    && AtMostOne(entries, SERVER_URL) && AtMostOne(entries, LISTEN_ADDR) && AtMostOne(entries, METRICS_LISTEN_ADDR)
    && AtMostOne(entries, GRPC_LISTEN_ADDR) && AtMostOne(entries, UNIX_SOCKET) && AtMostOne(entries, POLICY)
    && forall e | e in entries && e.value.Object? && Matches(e.key, POLICY) :: AtMostOne(e.value.entries, MODE)
  }

  /** Where a field is spelled once, decoding into a map keeps that pair and adds no other spelling. */
  lemma {:induction false} SoleSpelling(entries: seq<Entry>, name: string, key: string)
    requires AtMostOne(entries, name) && Matches(key, name)
    ensures key in AsMap(entries) <==> exists e :: e in entries && e.key == key
    ensures forall e | e in entries && Matches(e.key, name) ::
      e.key in AsMap(entries) && AsMap(entries)[e.key] == Normal(e.value)
    ensures key in AsMap(entries) ==> exists e :: e in entries && e.key == key && AsMap(entries)[key] == Normal(e.value)
    decreases |entries|
  {
    if entries != [] {
      var n := |entries| - 1;
      var front, last := entries[..n], entries[n];
      SoleSpelling(front, name, key);
      assert last in entries && forall e :: e in entries <==> e in front || e == last;
      forall e | e in front && Matches(e.key, name) ensures e.key != last.key {
        var i :| 0 <= i < n && front[i] == e;
        assert entries[i] == e && !(Matches(entries[i].key, name) && Matches(entries[n].key, name));
      }
    }
  }

  lemma NotBoth(entries: seq<Entry>, name: string, i: nat, j: nat)
    requires AtMostOne(entries, name) && i < |entries| && j < |entries|
    requires Matches(entries[i].key, name) && Matches(entries[j].key, name)
    ensures i == j
  {
  }

  lemma SoleEntry(entries: seq<Entry>, name: string, a: Entry, b: Entry)
    requires AtMostOne(entries, name) && a in entries && b in entries && Matches(a.key, name) && Matches(b.key, name)
    ensures a == b
  {
    var i :| 0 <= i < |entries| && entries[i] == a;
    var j :| 0 <= j < |entries| && entries[j] == b;
    NotBoth(entries, name, i, j);
  }

  /** `doc` has the spellings of `name` that decoding `entries` into a map gives. */
  ghost predicate Keeps(doc: Document, entries: seq<Entry>, name: string) {
    forall k | Matches(k, name) ::
      (k in doc <==> k in AsMap(entries)) && (k in doc ==> doc[k] == AsMap(entries)[k])
  }

  /** A pair of the encoded map that spells the field comes from the pair that spells it in the text, and back. */
  lemma OfferKept(doc: Document, entries: seq<Entry>, name: string, x: Entry)
    requires AtMostOne(entries, name) && Keeps(doc, entries, name) && Matches(x.key, name)
    ensures x in Encode(doc) ==> exists e :: e in entries && e.key == x.key && Normal(e.value) == x.value
    ensures x in entries ==> Entry(x.key, Normal(x.value)) in Encode(doc)
  {
    EncodeMembers(doc, x);
    SoleSpelling(entries, name, x.key);
    EncodeMembers(doc, Entry(x.key, Normal(x.value)));
  }

  lemma NothingOffered(doc: Document, entries: seq<Entry>, name: string)
    requires AtMostOne(entries, name) && Keeps(doc, entries, name)
    ensures (exists x :: x in Encode(doc) && Offers(x, name)) ==> exists e :: e in entries && Offers(e, name)
    ensures (exists x :: x in Encode(doc) && Matches(x.key, name) && x.value.Object?) ==>
      exists e :: e in entries && Matches(e.key, name) && e.value.Object?
  {
    if exists x :: x in Encode(doc) && Offers(x, name) {
      var x :| x in Encode(doc) && Offers(x, name);
      OfferKept(doc, entries, name, x);
      var f :| f in entries && f.key == x.key && Normal(f.value) == x.value;
      assert Offers(f, name);
    }
    if exists x :: x in Encode(doc) && Matches(x.key, name) && x.value.Object? {
      var x :| x in Encode(doc) && Matches(x.key, name) && x.value.Object?;
      OfferKept(doc, entries, name, x);
      var f :| f in entries && f.key == x.key && Normal(f.value) == x.value;
      assert f.value.Object?;
    }
  }

  lemma FieldKept(field: string, doc: Document, entries: seq<Entry>, name: string)
    requires AtMostOne(entries, name) && Keeps(doc, entries, name)
    ensures DecodeText(field, Encode(doc), name) == DecodeText(field, entries, name)
  {
    DecodeTextPicks(field, entries, name);
    DecodeTextPicks(field, Encode(doc), name);
    if exists e :: e in entries && Offers(e, name) {
      var e :| e in entries && Offers(e, name) && e.value.s == DecodeText(field, entries, name);
      OfferKept(doc, entries, name, e);
      assert Entry(e.key, e.value) in Encode(doc);
      var x :| x in Encode(doc) && Offers(x, name) && x.value.s == DecodeText(field, Encode(doc), name);
      OfferKept(doc, entries, name, x);
      var f :| f in entries && f.key == x.key && Normal(f.value) == x.value;
      SoleEntry(entries, name, e, f);
    } else {
      NothingOffered(doc, entries, name);
    }
  }

  /** Apart from `name` itself, `doc` has the spellings of `name` that decoding `entries` into a map gives. */
  ghost predicate KeepsVariants(doc: Document, entries: seq<Entry>, name: string) {
    forall k | Matches(k, name) && k != name ::
      (k in doc <==> k in AsMap(entries)) && (k in doc ==> doc[k] == AsMap(entries)[k])
  }

  /** A wiring field reads back as the view's value, whatever other spelling of it the config has. */
  lemma WiringKept(doc: Document, entries: seq<Entry>, name: string, fallback: string)
    requires AtMostOne(entries, name) && Matches(name, name) && KeepsVariants(doc, entries, name)
    requires name in doc && doc[name] == Text(FirstNonEmpty(DecodeText("", entries, name), fallback))
    ensures FirstNonEmpty(DecodeText("", Encode(doc), name), fallback)
         == FirstNonEmpty(DecodeText("", entries, name), fallback)
  {
    var own := Entry(name, doc[name]);
    EncodeMembers(doc, own);
    DecodeTextPicks("", Encode(doc), name);
    assert Offers(own, name);
    var x :| x in Encode(doc) && Offers(x, name) && x.value.s == DecodeText("", Encode(doc), name);
    EncodeMembers(doc, x);
    if x.key != name {
      SoleSpelling(entries, name, x.key);
      var e :| e in entries && e.key == x.key && AsMap(entries)[x.key] == Normal(e.value);
      assert Offers(e, name);
      forall f | f in entries && Offers(f, name) ensures f == e {
        SoleEntry(entries, name, e, f);
      }
      DecodeTextAgreed("", entries, name, e);
    }
  }

  lemma ModeKept(doc: Document, entries: seq<Entry>)
    requires AtMostOne(entries, POLICY) && Keeps(doc, entries, POLICY)
    requires forall e | e in entries && OffersMode(e) :: AtMostOne(e.value.entries, MODE)
    ensures DecodeMode("", Encode(doc)) == DecodeMode("", entries)
  {
    if exists e :: e in entries && OffersMode(e) {
      var e :| e in entries && OffersMode(e);
      var nested := e.value.entries;
      forall f | f in entries && OffersMode(f) ensures f == e {
        SoleEntry(entries, POLICY, e, f);
      }
      DecodeModeAgreed("", entries, nested);
      OfferKept(doc, entries, POLICY, e);
      var encoded := Entry(e.key, Normal(e.value));
      assert OffersMode(encoded) && encoded in Encode(doc);
      forall x | x in Encode(doc) && OffersMode(x) ensures x == encoded {
        OfferKept(doc, entries, POLICY, x);
        var f :| f in entries && f.key == x.key && Normal(f.value) == x.value;
        assert OffersMode(f);
      }
      DecodeModeAgreed("", Encode(doc), encoded.value.entries);
      FieldKept("", AsMap(nested), nested, MODE);
    } else {
      NothingOffered(doc, entries, POLICY);
      assert forall x | x in Encode(doc) :: !OffersMode(x);
      DecodeModeAgreed("", entries, []);
      DecodeModeAgreed("", Encode(doc), []);
    }
  }

  /** The names are told apart by length and first letter, also up to case. */
  lemma NamesApart(k: string, name: string)
    requires Wiring(k) && Matches(k, name)
    ensures name != SERVER_URL && name != POLICY && (Wiring(name) ==> k == name)
  {
    assert |SERVER_URL| == 10 && |POLICY| == 6;
    assert |LISTEN_ADDR| == 11 && |METRICS_LISTEN_ADDR| == 19 && |GRPC_LISTEN_ADDR| == 16 && |UNIX_SOCKET| == 11;
    assert Fold(k[0]) == name[0];
    assert LISTEN_ADDR[0] == 'l' && UNIX_SOCKET[0] == 'u';
  }

  lemma NamesMatchThemselves()
    ensures Matches(LISTEN_ADDR, LISTEN_ADDR) && Matches(METRICS_LISTEN_ADDR, METRICS_LISTEN_ADDR)
    ensures Matches(GRPC_LISTEN_ADDR, GRPC_LISTEN_ADDR) && Matches(UNIX_SOCKET, UNIX_SOCKET)
  {
  }

  lemma WireKeeps(entries: seq<Entry>, view: View, name: string)
    ensures name == SERVER_URL || name == POLICY ==> Keeps(Wire(AsMap(entries), view), entries, name)
    ensures Wiring(name) ==> KeepsVariants(Wire(AsMap(entries), view), entries, name)
  {
    forall k | Wiring(k) && Matches(k, name)
      ensures name != SERVER_URL && name != POLICY && (Wiring(name) ==> k == name) {
      NamesApart(k, name);
    }
  }

  lemma WiresAreWiring()
    ensures Wiring(LISTEN_ADDR) && Wiring(METRICS_LISTEN_ADDR) && Wiring(GRPC_LISTEN_ADDR) && Wiring(UNIX_SOCKET)
  {
  }

  lemma WireSets(doc: Document, view: View)
    ensures var w := Wire(doc, view);
      && LISTEN_ADDR in w && w[LISTEN_ADDR] == Text(view.listenAddr)
      && METRICS_LISTEN_ADDR in w && w[METRICS_LISTEN_ADDR] == Text(view.metricsListenAddr)
      && GRPC_LISTEN_ADDR in w && w[GRPC_LISTEN_ADDR] == Text(view.grpcListenAddr)
      && UNIX_SOCKET in w && w[UNIX_SOCKET] == Text(view.unixSocket)
  {
    DistinctWiring();
  }

  /**
   Parsing the rendered config gives back the view, for every config that spells each field the operator
   reads at most once.
   */
  lemma ViewIsFixed(raw: Raw, doc: Document)
    requires RenderConfig(raw, ParseConfigView(raw)) == Ok(doc) && Unambiguous(EntriesOf(raw))
    ensures ParseConfigView(Doc(Encode(doc))) == ParseConfigView(raw)
  {
    hide Wire, Keeps, KeepsVariants, Encode, AsMap, Matches, AtMostOne, DecodeText, DecodeMode, Wiring;
    var es, view := EntriesOf(raw), ParseConfigView(raw);
    WiresAreWiring();
    WireSets(AsMap(es), view);
    NamesMatchThemselves();
    WireKeeps(es, view, SERVER_URL);
    FieldKept("", doc, es, SERVER_URL);
    WireKeeps(es, view, POLICY);
    ModeKept(doc, es);
    WireKeeps(es, view, LISTEN_ADDR);
    WiringKept(doc, es, LISTEN_ADDR, DEFAULT_LISTEN_ADDR);
    WireKeeps(es, view, METRICS_LISTEN_ADDR);
    WiringKept(doc, es, METRICS_LISTEN_ADDR, DEFAULT_METRICS_LISTEN_ADDR);
    WireKeeps(es, view, GRPC_LISTEN_ADDR);
    WiringKept(doc, es, GRPC_LISTEN_ADDR, DEFAULT_GRPC_LISTEN_ADDR);
    WireKeeps(es, view, UNIX_SOCKET);
    WiringKept(doc, es, UNIX_SOCKET, DEFAULT_UNIX_SOCKET);
  }

  lemma DecodeHead(field: string, doc: Document, keys: seq<string>, name: string)
    requires keys != []
    ensures var first := keys[0];
      var next := if first in doc && Offers(Entry(first, doc[first]), name) then doc[first].s else field;
      DecodeText(field, EncodeKeys(doc, keys), name) == DecodeText(next, EncodeKeys(doc, keys[1..]), name)
  {
    var first, rest := keys[0], EncodeKeys(doc, keys[1..]);
    if first in doc {
      assert ([Entry(first, doc[first])] + rest)[1..] == rest;
    } else {
      assert [] + rest == rest;
    }
  }

  /** In an encoded map the greatest spelling of a field decides. */
  lemma {:induction false} GreatestSpellingDecides(field: string, doc: Document, keys: seq<string>, name: string, k: string)
    requires Increasing(keys) && k in keys && k in doc && Offers(Entry(k, doc[k]), name)
    requires forall x | x in keys && x in doc && Offers(Entry(x, doc[x]), name) :: AtMost(x, k)
    ensures DecodeText(field, EncodeKeys(doc, keys), name) == doc[k].s
    decreases |keys|
  {
    var first, rest := keys[0], keys[1..];
    assert forall x :: x in keys <==> x == first || x in rest;
    var next := if first in doc && Offers(Entry(first, doc[first]), name) then doc[first].s else field;
    DecodeHead(field, doc, keys, name);
    if first == k {
      forall e | e in EncodeKeys(doc, rest) ensures !Offers(e, name) {
        EncodeKeysMembers(doc, rest, e);
        var i :| 0 <= i < |rest| && rest[i] == e.key;
        assert Less(keys[0], keys[i + 1]);
        if AtMost(e.key, k) {
          AtMostAntisymmetric(e.key, k);
        }
      }
      DecodeTextPicks(next, EncodeKeys(doc, rest), name);
    } else {
      GreatestSpellingDecides(next, doc, rest, name, k);
    }
  }

  ghost predicate IsOffered(doc: Document, name: string, k: string) {
    k in doc && Offers(Entry(k, doc[k]), name)
  }

  /** `k` is the greatest spelling of the field with a string. */
  ghost predicate Wins(doc: Document, name: string, k: string) {
    IsOffered(doc, name, k) && forall x | IsOffered(doc, name, x) :: AtMost(x, k)
  }

  /** By the greatest spelling, if there is any, this is the field's value. */
  ghost predicate ByGreatestSpelling(doc: Document, name: string, v: string) {
    (exists k :: Wins(doc, name, k) && doc[k].s == v) || (v == "" && forall k :: !IsOffered(doc, name, k))
  }

  lemma {:induction false} WinnerAmong(doc: Document, keys: seq<string>, name: string) returns (k: string)
    requires Increasing(keys) && exists x :: x in keys && IsOffered(doc, name, x)
    ensures k in keys && IsOffered(doc, name, k) && forall x | x in keys && IsOffered(doc, name, x) :: AtMost(x, k)
    decreases |keys|
  {
    var first, rest := keys[0], keys[1..];
    assert forall x :: x in keys <==> x == first || x in rest;
    if exists x :: x in rest && IsOffered(doc, name, x) {
      k := WinnerAmong(doc, rest, name);
      FirstIsLeast(keys, k);
    } else {
      k := first;
      AtMostTotal(k, k);
    }
  }

  lemma FirstIsLeast(keys: seq<string>, k: string)
    requires Increasing(keys) && keys != [] && k in keys[1..]
    ensures AtMost(keys[0], k) && k != keys[0]
  {
    var i :| 0 <= i < |keys[1..]| && keys[1..][i] == k;
    assert Less(keys[0], keys[i + 1]);
  }

  lemma KeysAreIncreasing(doc: Document)
    ensures Increasing(Canonical(doc.Keys)) && forall k :: k in Canonical(doc.Keys) <==> k in doc
  {
    CanonicalIs(doc.Keys);
    forall k ensures k in Canonical(doc.Keys) <==> k in doc {
      assert k in Canonical(doc.Keys) <==> k in Elements(Canonical(doc.Keys));
    }
  }

  /** Reading an encoded map goes by the greatest spelling. */
  lemma EncodedReadsGreatest(doc: Document, name: string, v: string)
    ensures DecodeText("", Encode(doc), name) == v <==> ByGreatestSpelling(doc, name, v)
  {
    KeysAreIncreasing(doc);
    if exists x :: x in Canonical(doc.Keys) && IsOffered(doc, name, x) {
      var k := WinnerAmong(doc, Canonical(doc.Keys), name);
      GreatestSpellingDecides("", doc, Canonical(doc.Keys), name, k);
      forall x | Wins(doc, name, x) ensures x == k {
        AtMostAntisymmetric(x, k);
      }
    } else {
      DecodeTextPicks("", Encode(doc), name);
      forall e | e in Encode(doc) ensures !Offers(e, name) {
        EncodeMembers(doc, e);
        assert !IsOffered(doc, name, e.key);
      }
    }
  }

  // ---------- The policy mode, in a nested object ----------

  /** A policy object that says something about the mode. */
  ghost predicate HasMode(doc: Document, k: string) {
    k in doc && Matches(k, POLICY) && doc[k].Object? && exists e :: e in doc[k].entries && Offers(e, MODE)
  }

  ghost predicate WinsMode(doc: Document, k: string) {
    HasMode(doc, k) && forall x | HasMode(doc, x) :: AtMost(x, k)
  }

  /** By the greatest spelling of the policy that has a mode, and in it the greatest of the mode, this is the mode. */
  ghost predicate ModeByGreatestSpelling(doc: Document, v: string) {
    || (exists k :: WinsMode(doc, k) && ByGreatestSpelling(AsMap(doc[k].entries), MODE, v))
    || (v == "" && forall k :: !HasMode(doc, k))
  }

  lemma {:induction false} NoModeDecides(mode: string, doc: Document, keys: seq<string>)
    requires forall k | k in keys :: !HasMode(doc, k)
    ensures DecodeMode(mode, EncodeKeys(doc, keys)) == mode
    decreases |keys|
  {
    if keys != [] {
      assert keys[0] in keys && forall k | k in keys[1..] :: k in keys;
      NoModeDecides(mode, doc, keys[1..]);
      DecodeModeHead(mode, doc, keys);
      if OffersModeAt(doc, keys[0]) {
        DecodeTextPicks(mode, doc[keys[0]].entries, MODE);
      }
    }
  }

  ghost predicate OffersModeAt(doc: Document, k: string) {
    k in doc && Matches(k, POLICY) && doc[k].Object?
  }

  lemma DecodeModeHead(mode: string, doc: Document, keys: seq<string>)
    requires keys != []
    ensures DecodeMode(mode, EncodeKeys(doc, keys)) ==
      DecodeMode(if OffersModeAt(doc, keys[0]) then DecodeText(mode, doc[keys[0]].entries, MODE) else mode,
        EncodeKeys(doc, keys[1..]))
  {
    var first, rest := keys[0], EncodeKeys(doc, keys[1..]);
    if first in doc {
      assert ([Entry(first, doc[first])] + rest)[1..] == rest;
    } else {
      assert [] + rest == rest;
    }
  }

  lemma {:induction false} GreatestModeDecides(mode: string, doc: Document, keys: seq<string>, k: string)
    requires Increasing(keys) && k in keys && HasMode(doc, k)
    requires forall x | x in keys && HasMode(doc, x) :: AtMost(x, k)
    ensures DecodeMode(mode, EncodeKeys(doc, keys)) == DecodeText("", doc[k].entries, MODE)
    decreases |keys|
  {
    var first, rest := keys[0], keys[1..];
    assert forall x :: x in keys <==> x == first || x in rest;
    DecodeModeHead(mode, doc, keys);
    var next := if OffersModeAt(doc, first) then DecodeText(mode, doc[first].entries, MODE) else mode;
    if first == k {
      forall x | x in rest ensures !HasMode(doc, x) {
        FirstIsLeast(keys, x);
        if HasMode(doc, x) {
          AtMostAntisymmetric(x, k);
        }
      }
      NoModeDecides(next, doc, rest);
      DecodeFromAny(mode, "", doc[k].entries, MODE);
    } else {
      GreatestModeDecides(next, doc, rest, k);
    }
  }

  lemma {:induction false} ModeWinnerAmong(doc: Document, keys: seq<string>) returns (k: string)
    requires Increasing(keys) && exists x :: x in keys && HasMode(doc, x)
    ensures k in keys && HasMode(doc, k) && forall x | x in keys && HasMode(doc, x) :: AtMost(x, k)
    decreases |keys|
  {
    var first, rest := keys[0], keys[1..];
    assert forall x :: x in keys <==> x == first || x in rest;
    if exists x :: x in rest && HasMode(doc, x) {
      k := ModeWinnerAmong(doc, rest);
      FirstIsLeast(keys, k);
    } else {
      k := first;
      AtMostTotal(k, k);
    }
  }

  lemma NormalEntries(doc: Document, k: string)
    requires IsNormal(doc) && k in doc && doc[k].Object?
    ensures doc[k].entries == Encode(AsMap(doc[k].entries))
  {
    assert Normal(doc[k]) == doc[k];
  }

  lemma EncodedReadsGreatestMode(doc: Document, v: string)
    requires IsNormal(doc)
    ensures DecodeMode("", Encode(doc)) == v <==> ModeByGreatestSpelling(doc, v)
  {
    KeysAreIncreasing(doc);
    if exists x :: x in Canonical(doc.Keys) && HasMode(doc, x) {
      var k := ModeWinnerAmong(doc, Canonical(doc.Keys));
      GreatestModeDecides("", doc, Canonical(doc.Keys), k);
      NormalEntries(doc, k);
      EncodedReadsGreatest(AsMap(doc[k].entries), MODE, v);
      forall x | WinsMode(doc, x) ensures x == k {
        AtMostAntisymmetric(x, k);
      }
      assert WinsMode(doc, k);
    } else {
      NoModeDecides("", doc, Canonical(doc.Keys));
    }
  }

  // ---------- Exactly when the view is kept ----------

  /** The greatest spelling of the field gives this value, once defaulted. */
  ghost predicate Gives(doc: Document, name: string, fallback: string, v: string) {
    exists raw :: ByGreatestSpelling(doc, name, raw) && FirstNonEmpty(raw, fallback) == v
  }

  lemma GivesWhatIsRead(doc: Document, name: string, fallback: string, v: string)
    ensures Gives(doc, name, fallback, v) <==> FirstNonEmpty(DecodeText("", Encode(doc), name), fallback) == v
  {
    EncodedReadsGreatest(doc, name, DecodeText("", Encode(doc), name));
    if Gives(doc, name, fallback, v) {
      var raw :| ByGreatestSpelling(doc, name, raw) && FirstNonEmpty(raw, fallback) == v;
      EncodedReadsGreatest(doc, name, raw);
    }
  }

  lemma ModeGivesWhatIsRead(doc: Document, v: string)
    requires IsNormal(doc)
    ensures ModeGives(doc, v) <==> FirstNonEmpty(DecodeMode("", Encode(doc)), DEFAULT_POLICY_MODE) == v
  {
    EncodedReadsGreatestMode(doc, DecodeMode("", Encode(doc)));
    if ModeGives(doc, v) {
      var raw :| ModeByGreatestSpelling(doc, raw) && FirstNonEmpty(raw, DEFAULT_POLICY_MODE) == v;
      EncodedReadsGreatestMode(doc, raw);
    }
  }

  /** The greatest spellings of policy and mode give this mode, once defaulted. */
  ghost predicate ModeGives(doc: Document, v: string) {
    exists raw :: ModeByGreatestSpelling(doc, raw) && FirstNonEmpty(raw, DEFAULT_POLICY_MODE) == v
  }

  // ---------- What the config must be like for that ----------

  /** No spelling of the wiring field with a string comes after the field's own name, or the last such says the same. */
  ghost predicate KeepsWiring(entries: seq<Entry>, name: string, fallback: string) {
    forall k | Wins(AsMap(entries), name, k) && !AtMost(k, name) ::
      FirstNonEmpty(AsMap(entries)[k].s, fallback) == FirstNonEmpty(DecodeText("", entries, name), fallback)
  }

  /** The config's server URL and policy mode are those of their greatest spellings. */
  ghost predicate KeepsRest(entries: seq<Entry>) {
    && ByGreatestSpelling(AsMap(entries), SERVER_URL, DecodeText("", entries, SERVER_URL))
    && ModeGives(AsMap(entries), FirstNonEmpty(DecodeMode("", entries), DEFAULT_POLICY_MODE))
  }

  ghost predicate KeepsAllWiring(entries: seq<Entry>) {
    && KeepsWiring(entries, LISTEN_ADDR, DEFAULT_LISTEN_ADDR)
    && KeepsWiring(entries, METRICS_LISTEN_ADDR, DEFAULT_METRICS_LISTEN_ADDR)
    && KeepsWiring(entries, GRPC_LISTEN_ADDR, DEFAULT_GRPC_LISTEN_ADDR)
    && KeepsWiring(entries, UNIX_SOCKET, DEFAULT_UNIX_SOCKET)
  }

  /** Wiring adds the field's own name to its spellings and leaves the others alone. */
  lemma WiredSpellings(m: Document, view: View, name: string, k: string)
    requires Wiring(name)
    ensures IsOffered(Wire(m, view), name, k) <==> (k == name && Matches(name, name)) || (k != name && IsOffered(m, name, k))
    ensures k != name && IsOffered(m, name, k) ==> Wire(m, view)[k] == m[k]
  {
    WireSets(m, view);
    if Matches(k, name) && Wiring(k) {
      NamesApart(k, name);
    }
  }

  lemma WiredWinner(m: Document, view: View, name: string, k: string)
    requires Wiring(name) && Matches(name, name) && Wins(m, name, k) && !AtMost(k, name)
    ensures Wins(Wire(m, view), name, k) && Wire(m, view)[k] == m[k]
  {
    AtMostTotal(k, name);
    WiredSpellings(m, view, name, k);
    AtMostTotal(name, name);
    forall x | IsOffered(Wire(m, view), name, x) ensures AtMost(x, k) {
      WiredSpellings(m, view, name, x);
    }
  }

  /** Otherwise the name itself decides. */
  lemma OwnNameWins(m: Document, view: View, name: string)
    requires Wiring(name) && Matches(name, name) && forall k | Wins(m, name, k) :: AtMost(k, name)
    ensures Wins(Wire(m, view), name, name)
  {
    WiredSpellings(m, view, name, name);
    AtMostTotal(name, name);
    forall x | IsOffered(Wire(m, view), name, x) ensures AtMost(x, name) {
      WiredSpellings(m, view, name, x);
      if x != name {
        KeysAreIncreasing(m);
        assert x in Canonical(m.Keys);
        var k := WinnerAmong(m, Canonical(m.Keys), name);
        assert Wins(m, name, k);
        AtMostTransitive(x, k, name);
      }
    }
  }

  lemma WinnerGives(doc: Document, name: string, fallback: string, k: string, v: string)
    requires Wins(doc, name, k)
    ensures Gives(doc, name, fallback, v) <==> FirstNonEmpty(doc[k].s, fallback) == v
  {
    assert ByGreatestSpelling(doc, name, doc[k].s);
    forall x | Wins(doc, name, x) ensures x == k {
      AtMostAntisymmetric(x, k);
    }
  }

  lemma WiringFieldExactly(entries: seq<Entry>, view: View, name: string, fallback: string)
    requires Wiring(name) && Matches(name, name) && fallback != ""
    requires Wire(AsMap(entries), view)[name] == Text(FirstNonEmpty(DecodeText("", entries, name), fallback))
    ensures Gives(Wire(AsMap(entries), view), name, fallback, FirstNonEmpty(DecodeText("", entries, name), fallback))
      <==> KeepsWiring(entries, name, fallback)
  {
    var m, v := AsMap(entries), FirstNonEmpty(DecodeText("", entries, name), fallback);
    if k :| Wins(m, name, k) && !AtMost(k, name) {
      WiredWinner(m, view, name, k);
      WinnerGives(Wire(m, view), name, fallback, k, v);
      forall x | Wins(m, name, x) ensures x == k {
        AtMostAntisymmetric(x, k);
      }
    } else {
      OwnNameWins(m, view, name);
      WinnerGives(Wire(m, view), name, fallback, name, v);
    }
  }

  lemma WiringExactly(raw: Raw, doc: Document)
    requires RenderConfig(raw, ParseConfigView(raw)) == Ok(doc)
    ensures KeepsAllWiring(EntriesOf(raw)) <==>
      && Gives(doc, LISTEN_ADDR, DEFAULT_LISTEN_ADDR, ParseConfigView(raw).listenAddr)
      && Gives(doc, METRICS_LISTEN_ADDR, DEFAULT_METRICS_LISTEN_ADDR, ParseConfigView(raw).metricsListenAddr)
      && Gives(doc, GRPC_LISTEN_ADDR, DEFAULT_GRPC_LISTEN_ADDR, ParseConfigView(raw).grpcListenAddr)
      && Gives(doc, UNIX_SOCKET, DEFAULT_UNIX_SOCKET, ParseConfigView(raw).unixSocket)
    ensures KeepsWiring(EntriesOf(raw), GRPC_LISTEN_ADDR, DEFAULT_GRPC_LISTEN_ADDR) <==>
      Gives(doc, GRPC_LISTEN_ADDR, DEFAULT_GRPC_LISTEN_ADDR, ParseConfigView(raw).grpcListenAddr)
  {
    hide Wire, Gives, KeepsWiring, AsMap, Matches, DecodeText, DecodeMode, Wiring;
    var es, view := EntriesOf(raw), ParseConfigView(raw);
    NamesMatchThemselves();
    WiresAreWiring();
    WireSets(AsMap(es), view);
    WiringFieldExactly(es, view, LISTEN_ADDR, DEFAULT_LISTEN_ADDR);
    WiringFieldExactly(es, view, METRICS_LISTEN_ADDR, DEFAULT_METRICS_LISTEN_ADDR);
    WiringFieldExactly(es, view, GRPC_LISTEN_ADDR, DEFAULT_GRPC_LISTEN_ADDR);
    WiringFieldExactly(es, view, UNIX_SOCKET, DEFAULT_UNIX_SOCKET);
  }

  /** The server URL is not wired, so its spellings are those of the text. */
  lemma ServerUrlExactly(m: Document, view: View, v: string)
    ensures Gives(Wire(m, view), SERVER_URL, "", v) <==> ByGreatestSpelling(m, SERVER_URL, v)
  {
    var doc := Wire(m, view);
    forall k ensures (IsOffered(doc, SERVER_URL, k) <==> IsOffered(m, SERVER_URL, k))
        && (IsOffered(m, SERVER_URL, k) ==> doc[k] == m[k]) {
      if Matches(k, SERVER_URL) {
        ServerUrlIsNotWired(m, view, k);
      }
    }
    forall k ensures Wins(doc, SERVER_URL, k) <==> Wins(m, SERVER_URL, k) {
    }
    if ByGreatestSpelling(m, SERVER_URL, v) {
      assert ByGreatestSpelling(doc, SERVER_URL, v) && FirstNonEmpty(v, "") == v;
    }
  }

  lemma PolicyIsNotWired(m: Document, view: View, k: string)
    requires Matches(k, POLICY)
    ensures k in Wire(m, view) <==> k in m
    ensures k in m ==> Wire(m, view)[k] == m[k]
  {
    if Wiring(k) {
      NamesApart(k, POLICY);
    }
  }

  /** Nor is the policy. */
  lemma ModeExactly(m: Document, view: View, v: string)
    ensures ModeByGreatestSpelling(Wire(m, view), v) <==> ModeByGreatestSpelling(m, v)
  {
    var doc := Wire(m, view);
    forall k ensures (HasMode(doc, k) <==> HasMode(m, k)) && (HasMode(m, k) ==> doc[k] == m[k]) {
      if Matches(k, POLICY) {
        PolicyIsNotWired(m, view, k);
      }
    }
    forall k ensures WinsMode(doc, k) <==> WinsMode(m, k) {
    }
  }

  lemma ModeGivesExactly(m: Document, view: View, v: string)
    ensures ModeGives(Wire(m, view), v) <==> ModeGives(m, v)
  {
    forall raw ensures ModeByGreatestSpelling(Wire(m, view), raw) <==> ModeByGreatestSpelling(m, raw) {
      ModeExactly(m, view, raw);
    }
  }

  // ---------- The two laws, exactly ----------

  lemma WiredTwice(doc: Document, view: View, other: View)
    ensures Wire(Wire(doc, view), other) == Wire(doc, view)
      <==> other.listenAddr == view.listenAddr && other.metricsListenAddr == view.metricsListenAddr
           && other.grpcListenAddr == view.grpcListenAddr && other.unixSocket == view.unixSocket
  {
    WireSets(doc, view);
    WireSets(Wire(doc, view), other);
    DistinctWiring();
  }

  /** The wiring fields of the view read from the rendered config are the ones it was rendered with. */
  ghost predicate SameWiring(a: View, b: View) {
    && a.listenAddr == b.listenAddr && a.metricsListenAddr == b.metricsListenAddr
    && a.grpcListenAddr == b.grpcListenAddr && a.unixSocket == b.unixSocket
  }

  lemma WiringIsReadExactly(raw: Raw, doc: Document)
    requires RenderConfig(raw, ParseConfigView(raw)) == Ok(doc)
    ensures SameWiring(ParseConfigView(Doc(Encode(doc))), ParseConfigView(raw)) <==> KeepsAllWiring(EntriesOf(raw))
    ensures ParseConfigView(Doc(Encode(doc))).grpcListenAddr == ParseConfigView(raw).grpcListenAddr
      <==> KeepsWiring(EntriesOf(raw), GRPC_LISTEN_ADDR, DEFAULT_GRPC_LISTEN_ADDR)
  {
    hide Gives, KeepsWiring, KeepsAllWiring, DecodeText, DecodeMode, RenderConfig;
    var view := ParseConfigView(raw);
    WiringExactly(raw, doc);
    GivesWhatIsRead(doc, LISTEN_ADDR, DEFAULT_LISTEN_ADDR, view.listenAddr);
    GivesWhatIsRead(doc, METRICS_LISTEN_ADDR, DEFAULT_METRICS_LISTEN_ADDR, view.metricsListenAddr);
    GivesWhatIsRead(doc, GRPC_LISTEN_ADDR, DEFAULT_GRPC_LISTEN_ADDR, view.grpcListenAddr);
    GivesWhatIsRead(doc, UNIX_SOCKET, DEFAULT_UNIX_SOCKET, view.unixSocket);
  }

  lemma RestIsReadExactly(raw: Raw, doc: Document)
    requires RenderConfig(raw, ParseConfigView(raw)) == Ok(doc)
    ensures var again, view := ParseConfigView(Doc(Encode(doc))), ParseConfigView(raw);
      again.serverUrl == view.serverUrl && again.policyMode == view.policyMode <==> KeepsRest(EntriesOf(raw))
  {
    var es, view := EntriesOf(raw), ParseConfigView(raw);
    RenderedIsNormal(raw, view, doc);
    GivesWhatIsRead(doc, SERVER_URL, "", view.serverUrl);
    ServerUrlExactly(AsMap(es), view, view.serverUrl);
    ModeGivesWhatIsRead(doc, view.policyMode);
    ModeGivesExactly(AsMap(es), view, view.policyMode);
  }

  /**
   Whatever the config spells how often: parsing the rendered config gives back the view if and only if, in the
   config, server URL and policy mode are those of their greatest spellings, and no spelling of a wiring field
   that comes after the field's own name says otherwise.
   */
  lemma ViewIsFixedExactly(raw: Raw, doc: Document)
    requires RenderConfig(raw, ParseConfigView(raw)) == Ok(doc)
    ensures ParseConfigView(Doc(Encode(doc))) == ParseConfigView(raw)
      <==> KeepsRest(EntriesOf(raw)) && KeepsAllWiring(EntriesOf(raw))
  {
    WiringIsReadExactly(raw, doc);
    RestIsReadExactly(raw, doc);
  }

  /** And rendering the rendered config again changes nothing if and only if the latter holds. */
  lemma RenderIsFixedExactly(raw: Raw, doc: Document)
    requires RenderConfig(raw, ParseConfigView(raw)) == Ok(doc)
    ensures RenderConfig(Doc(Encode(doc)), ParseConfigView(Doc(Encode(doc)))) == Ok(doc)
      <==> KeepsAllWiring(EntriesOf(raw))
  {
    var view := ParseConfigView(raw);
    RenderedIsNormal(raw, view, doc);
    DecodeUndoesEncode(doc);
    WiredTwice(AsMap(EntriesOf(raw)), view, ParseConfigView(Doc(Encode(doc))));
    WiringIsReadExactly(raw, doc);
  }

  // ---------- Configs for which rendering is settled ----------

  /** No spelling of the field comes after its own name. */
  predicate OwnNameIsGreatest(entries: seq<Entry>, name: string) {
    forall e | e in entries && Matches(e.key, name) :: AtMost(e.key, name)
  }

  lemma {:induction false} KeysOfMap(entries: seq<Entry>, k: string)
    ensures k in AsMap(entries) <==> exists e :: e in entries && e.key == k
    decreases |entries|
  {
    if entries != [] {
      KeysOfMap(entries[..|entries| - 1], k);
      assert forall e :: e in entries <==> e in entries[..|entries| - 1] || e == entries[|entries| - 1];
    }
  }

  lemma OwnNameKeepsWiring(entries: seq<Entry>, name: string, fallback: string)
    requires OwnNameIsGreatest(entries, name)
    ensures KeepsWiring(entries, name, fallback)
  {
    forall k | Wins(AsMap(entries), name, k) ensures AtMost(k, name) {
      KeysOfMap(entries, k);
    }
  }

  /** If each field's own name is the greatest of its spellings, the rendered config is a fixpoint of rendering. */
  lemma RenderIsFixed(raw: Raw, doc: Document)
    requires RenderConfig(raw, ParseConfigView(raw)) == Ok(doc)
    requires forall name | Wiring(name) :: OwnNameIsGreatest(EntriesOf(raw), name)
    ensures RenderConfig(Doc(Encode(doc)), ParseConfigView(Doc(Encode(doc)))) == Ok(doc)
  {
    var es := EntriesOf(raw);
    WiresAreWiring();
    OwnNameKeepsWiring(es, LISTEN_ADDR, DEFAULT_LISTEN_ADDR);
    OwnNameKeepsWiring(es, METRICS_LISTEN_ADDR, DEFAULT_METRICS_LISTEN_ADDR);
    OwnNameKeepsWiring(es, GRPC_LISTEN_ADDR, DEFAULT_GRPC_LISTEN_ADDR);
    OwnNameKeepsWiring(es, UNIX_SOCKET, DEFAULT_UNIX_SOCKET);
    RenderIsFixedExactly(raw, doc);
  }

  predicate IsAscii(key: string) {
    forall i | 0 <= i < |key| :: key[i] < '\U{80}'
  }

  /** Which is so whenever they are spelled in ASCII: only long s and the Kelvin sign come after their letters. */
  lemma {:induction false} AsciiSpellingsAreNotGreater(key: string, name: string)
    requires IsAscii(key) && Matches(key, name)
    ensures AtMost(key, name)
  {
    if key != [] {
      assert Fold(key[0]) == name[0];
      assert Matches(key[1..], name[1..]) && IsAscii(key[1..]);
      AsciiSpellingsAreNotGreater(key[1..], name[1..]);
    }
  }

  lemma LongSpellingsAreGreater()
    ensures Matches("li\U{17F}ten_addr", LISTEN_ADDR) && !AtMost("li\U{17F}ten_addr", LISTEN_ADDR)
  {
    var key := "li\U{17F}ten_addr";
    assert key[1..][1..] == "\U{17F}ten_addr" && LISTEN_ADDR[1..][1..] == "sten_addr";
  }

  /** A config with two spellings of one field. */
  function TwoSpellings(first: string, second: string, a: string, b: string): seq<Entry> {
    [Entry(first, Text(a)), Entry(second, Text(b))]
  }

  lemma TwoSpellingsAsMap(first: string, second: string, a: string, b: string)
    requires first != second
    ensures AsMap(TwoSpellings(first, second, a, b)) == map[first := Text(a), second := Text(b)]
  {
    var es := TwoSpellings(first, second, a, b);
    assert es[..1] == [es[0]] && [es[0]][..0] == [];
    assert AsMap([es[0]]) == map[first := Text(a)];
  }

  lemma TwoSpellingsDecoded(first: string, second: string, a: string, b: string)
    requires Matches(first, SERVER_URL) && Matches(second, SERVER_URL)
    ensures DecodeText("", TwoSpellings(first, second, a, b), SERVER_URL) == b
  {
    var es := TwoSpellings(first, second, a, b);
    assert es[1..] == [es[1]] && [es[1]][1..] == [];
    assert DecodeText(a, [es[1]], SERVER_URL) == b;
  }

  lemma ServerUrlIsNotWired(doc: Document, view: View, key: string)
    requires Matches(key, SERVER_URL)
    ensures key in Wire(doc, view) <==> key in doc
    ensures key in doc ==> Wire(doc, view)[key] == doc[key]
  {
    if Wiring(key) {
      NamesApart(key, SERVER_URL);
    }
  }

  /**
   With two spellings of a field the law fails: before rendering the text's last pair wins, afterwards the last
   in key order.
   */
  lemma TwoSpellingsBreakTheView(first: string, second: string, a: string, b: string, doc: Document)
    requires Matches(first, SERVER_URL) && Matches(second, SERVER_URL) && first != second && AtMost(second, first)
    requires var raw := Doc(TwoSpellings(first, second, a, b)); RenderConfig(raw, ParseConfigView(raw)) == Ok(doc)
    ensures ParseConfigView(Doc(TwoSpellings(first, second, a, b))).serverUrl == b
    ensures ParseConfigView(Doc(Encode(doc))).serverUrl == a
  {
    TwoSpellingsDecoded(first, second, a, b);
    TwoSpellingsAsMap(first, second, a, b);
    var plain := AsMap(TwoSpellings(first, second, a, b));
    forall k | k in doc && Matches(k, SERVER_URL) ensures AtMost(k, first) {
      ServerUrlIsNotWired(plain, ParseConfigView(Doc(TwoSpellings(first, second, a, b))), k);
      AtMostTotal(first, first);
    }
    ServerUrlIsNotWired(plain, ParseConfigView(Doc(TwoSpellings(first, second, a, b))), first);
    CanonicalIs(doc.Keys);
    assert first in doc.Keys && first in Elements(Canonical(doc.Keys));
    GreatestSpellingDecides("", doc, Canonical(doc.Keys), SERVER_URL, first);
  }

  /** Such spellings exist: lower case first, then upper case. */
  lemma ServerUrlHasTwoSpellings()
    ensures Matches("server_url", SERVER_URL) && Matches("SERVER_URL", SERVER_URL)
    ensures "server_url" != "SERVER_URL" && AtMost("SERVER_URL", "server_url")
  {
    assert "server_url"[0] == 's' && "SERVER_URL"[0] == 'S';
  }
}
