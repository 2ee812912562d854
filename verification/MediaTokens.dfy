/**
 * Media tokens: media in a JSON tree is swapped for opaque tokens before a script
 * sees it, the script's output is checked for linear use, and the tokens are
 * swapped back. The script is an arbitrary tree.
 */
module MediaTokens {
  import opened Prelude

  datatype MediaFile = MediaFile(name: string, mime: string, data: seq<int>)

  // Arrays are nodes whose entries have no key; entries are listed as visited.
  datatype Json =
    | Null
    | Plain(text: string)
    | Str(value: string)
    | File(file: MediaFile)
    | Node(keyed: bool, entries: seq<Entry>)

  datatype Entry = Entry(key: string, value: Json)

  const TOKEN_PREFIX := "__fluxmedia_opaque_"

  predicate StartsWith(s: string, prefix: string) {
    prefix <= s
  }

  // ------------------------------------------------------------------ trees

  /** String leaves in order. */
  function Leaves(v: Json): seq<string> {
    match v
    case Str(s) => [s]
    case Node(_, entries) => LeavesAll(entries)
    case _ => []
  }

  function LeavesAll(entries: seq<Entry>): seq<string> {
    if entries == [] then [] else Leaves(entries[0].value) + LeavesAll(entries[1..])
  }

  function Nodes(v: Json): nat {
    1 + if v.Node? then NodesAll(v.entries) else 0
  }

  function NodesAll(entries: seq<Entry>): nat {
    if entries == [] then 0 else Nodes(entries[0].value) + NodesAll(entries[1..])
  }

  predicate WithinDepth(v: Json, depth: nat) {
    depth <= MAX_DEPTH && (v.Node? ==> WithinDepthAll(v.entries, depth + 1))
  }

  predicate WithinDepthAll(entries: seq<Entry>, depth: nat) {
    entries == [] || (WithinDepth(entries[0].value, depth) && WithinDepthAll(entries[1..], depth))
  }

  // ---------------------------------------------------------------- hiding

  // Which leaves are media: files of a request, or image text of a response,
  // where `sniffed` holds the texts whose first bytes decode to an image.
  datatype Mode = Request | Response(sniffed: set<string>)

  function Lower(c: char): char {
    if 'A' <= c <= 'Z' then (c as int - 'A' as int + 'a' as int) as char else c
  }

  /** The field name in lower case without underscores and dashes. */
  function FieldName(field: string): string {
    if field == "" then ""
    else (if field[0] == '_' || field[0] == '-' then "" else [Lower(field[0])]) + FieldName(field[1..])
  }

  predicate ImageField(field: string) {
    FieldName(field) in {"b64", "b64json", "base64", "base64image", "imageb64", "imagebase64", "partialimageb64"}
  }

  predicate IsMedia(v: Json, field: string, mode: Mode) {
    match v
    case File(_) => mode.Request?
    case Str(s) =>
      mode.Response? && (StartsWith(s, "data:image/") || (ImageField(field) && !StartsWith(s, "http")) || s in mode.sniffed)
    case _ => false
  }

  function FieldOf(keyed: bool, key: string, field: string): string {
    if keyed then key else field
  }

  /** The media of a tree, in order. */
  function MediaIn(v: Json, field: string, mode: Mode): seq<Json> {
    if IsMedia(v, field, mode) then [v]
    else if v.Node? then MediaInAll(v.entries, v.keyed, field, mode)
    else []
  }

  function MediaInAll(entries: seq<Entry>, keyed: bool, field: string, mode: Mode): seq<Json> {
    if entries == [] then []
    else
      MediaIn(entries[0].value, FieldOf(keyed, entries[0].key, field), mode) + MediaInAll(entries[1..], keyed, field, mode)
  }

  /** The tree with its media replaced, in order, by the given tokens. */
  function Hide(v: Json, field: string, mode: Mode, names: seq<string>): Json
    requires |names| == |MediaIn(v, field, mode)|
  {
    if IsMedia(v, field, mode) then Str(names[0])
    else if v.Node? then Node(v.keyed, HideAll(v.entries, v.keyed, field, mode, names))
    else v
  }

  function HideAll(entries: seq<Entry>, keyed: bool, field: string, mode: Mode, names: seq<string>): (hidden: seq<Entry>)
    requires |names| == |MediaInAll(entries, keyed, field, mode)|
  {
    if entries == [] then []
    else
      var field' := FieldOf(keyed, entries[0].key, field);
      var n := |MediaIn(entries[0].value, field', mode)|;
      [Entry(entries[0].key, Hide(entries[0].value, field', mode, names[..n]))]
      + HideAll(entries[1..], keyed, field, mode, names[n..])
  }

  /** The tree with every token replaced by its media. */
  function Restore(v: Json, tokens: map<string, Json>): Json {
    match v
    case Str(s) => if s in tokens then tokens[s] else v
    case Node(keyed, entries) => Node(keyed, RestoreAll(entries, tokens))
    case _ => v
  }

  function RestoreAll(entries: seq<Entry>, tokens: map<string, Json>): seq<Entry> {
    if entries == [] then []
    else [Entry(entries[0].key, Restore(entries[0].value, tokens))] + RestoreAll(entries[1..], tokens)
  }

  // ------------------------------------------------------------- round trip

  // Each name stands for the media it replaced.
  ghost predicate Maps(tokens: map<string, Json>, names: seq<string>, media: seq<Json>) {
    |names| == |media| && forall i :: 0 <= i < |names| ==> names[i] in tokens && tokens[names[i]] == media[i]
  }

  lemma {:induction false} RestoreHide(v: Json, field: string, mode: Mode, names: seq<string>, tokens: map<string, Json>)
    requires |names| == |MediaIn(v, field, mode)| && Maps(tokens, names, MediaIn(v, field, mode))
    requires forall s :: s in Leaves(v) ==> s !in tokens
    ensures Restore(Hide(v, field, mode, names), tokens) == v
  {
    if v.Node? {
      RestoreHideAll(v.entries, v.keyed, field, mode, names, tokens);
    }
  }

  lemma {:induction false} RestoreHideAll(
    entries: seq<Entry>, keyed: bool, field: string, mode: Mode, names: seq<string>, tokens: map<string, Json>)
    requires |names| == |MediaInAll(entries, keyed, field, mode)| && Maps(tokens, names, MediaInAll(entries, keyed, field, mode))
    requires forall s :: s in LeavesAll(entries) ==> s !in tokens
    ensures RestoreAll(HideAll(entries, keyed, field, mode, names), tokens) == entries
  {
    if entries != [] {
      var field' := FieldOf(keyed, entries[0].key, field);
      var first, rest := MediaIn(entries[0].value, field', mode), MediaInAll(entries[1..], keyed, field, mode);
      var n := |first|;
      assert MediaInAll(entries, keyed, field, mode) == first + rest;
      assert Maps(tokens, names[..n], first) by {
        forall i | 0 <= i < n ensures tokens[names[..n][i]] == first[i] { assert (first + rest)[i] == first[i]; }
      }
      assert Maps(tokens, names[n..], rest) by {
        forall i | 0 <= i < |rest| ensures tokens[names[n..][i]] == rest[i] { assert (first + rest)[n + i] == rest[i]; }
      }
      RestoreHide(entries[0].value, field', mode, names[..n], tokens);
      RestoreHideAll(entries[1..], keyed, field, mode, names[n..], tokens);
      var hidden := HideAll(entries, keyed, field, mode, names);
      assert hidden[1..] == HideAll(entries[1..], keyed, field, mode, names[n..]);
      assert entries == [entries[0]] + entries[1..];
    }
  }

  ghost predicate Distinct(names: seq<string>) {
    forall i, j :: 0 <= i < j < |names| ==> names[i] != names[j]
  }

  /** The token table of one exchange. */
  function Table(names: seq<string>, media: seq<Json>): (tokens: map<string, Json>)
    requires |names| == |media|
    ensures forall t :: t in tokens <==> t in names
  {
    if names == [] then map[]
    else
      var n := |names| - 1;
      assert names == names[..n] + [names[n]];
      Table(names[..n], media[..n])[names[n] := media[n]]
  }

  lemma {:induction false} TableMaps(names: seq<string>, media: seq<Json>)
    requires |names| == |media| && Distinct(names)
    ensures Maps(Table(names, media), names, media)
  {
    if names != [] {
      var n := |names| - 1;
      TableMaps(names[..n], media[..n]);
      var tokens := Table(names, media);
      forall i | 0 <= i < n ensures names[i] in tokens && tokens[names[i]] == media[i] {
        assert names[..n][i] == names[i] && media[..n][i] == media[i] && names[i] != names[n];
      }
    }
  }

  // Newly drawn identifiers: all different, and none of them already in the tree.
  ghost predicate Fresh(names: seq<string>, v: Json) {
    Distinct(names) && forall i :: 0 <= i < |names| ==> names[i] !in Leaves(v)
  }

  /** With fresh tokens, restoring what was hidden gives back every tree. */
  lemma RoundTrip(v: Json, mode: Mode, names: seq<string>)
    requires |names| == |MediaIn(v, "", mode)| && Fresh(names, v)
    ensures Restore(Hide(v, "", mode, names), Table(names, MediaIn(v, "", mode))) == v
  {
    TableMaps(names, MediaIn(v, "", mode));
    RestoreHide(v, "", mode, names, Table(names, MediaIn(v, "", mode)));
  }

  // -------------------------------------------------------------- linearity

  const MAX_NODES := 10000
  const MAX_DEPTH := 16
  const MAX_SERIALIZED := 2097152

  function Count(v: Json, token: string): nat {
    multiset(Leaves(v))[token]
  }

  predicate KeyAllowed(key: string, tokens: map<string, Json>) {
    key !in {"__proto__", "constructor", "prototype"} && !(tokens != map[] && StartsWith(key, TOKEN_PREFIX))
  }

  /** No forbidden key and no forged token anywhere. */
  predicate Clean(v: Json, tokens: map<string, Json>) {
    match v
    case Str(s) => s in tokens || !(tokens != map[] && StartsWith(s, TOKEN_PREFIX))
    case Node(keyed, entries) => CleanAll(entries, keyed, tokens)
    case _ => true
  }

  predicate CleanAll(entries: seq<Entry>, keyed: bool, tokens: map<string, Json>) {
    entries == []
    || ((keyed ==> KeyAllowed(entries[0].key, tokens)) && Clean(entries[0].value, tokens) && CleanAll(entries[1..], keyed, tokens))
  }

  /** A tree the exchange accepts: within the limits, clean, and every token used exactly once. */
  predicate Accepted(v: Json, tokens: map<string, Json>, serialized: nat) {
    && Nodes(v) <= MAX_NODES && WithinDepth(v, 0) && Clean(v, tokens)
    && (forall t | t in tokens :: Count(v, t) == 1)
    && serialized <= MAX_SERIALIZED
  }

  function RestoredLeaf(s: string, tokens: map<string, Json>): seq<string> {
    if s in tokens then Leaves(tokens[s]) else [s]
  }

  function RestoredLeaves(leaves: seq<string>, tokens: map<string, Json>): seq<string> {
    if leaves == [] then [] else RestoredLeaf(leaves[0], tokens) + RestoredLeaves(leaves[1..], tokens)
  }

  lemma {:induction false} RestoredConcat(a: seq<string>, b: seq<string>, tokens: map<string, Json>)
    ensures RestoredLeaves(a + b, tokens) == RestoredLeaves(a, tokens) + RestoredLeaves(b, tokens)
  {
    if a == [] {
      assert a + b == b;
    } else {
      RestoredConcat(a[1..], b, tokens);
      ConcatUncons(a, b);
      ConcatAssociative(RestoredLeaf(a[0], tokens), RestoredLeaves(a[1..], tokens), RestoredLeaves(b, tokens));
    }
  }

  lemma {:induction false} LeavesRestored(v: Json, tokens: map<string, Json>)
    ensures Leaves(Restore(v, tokens)) == RestoredLeaves(Leaves(v), tokens)
  {
    if v.Str? {
      assert [v.value][1..] == [];
    } else if v.Node? {
      LeavesRestoredAll(v.entries, tokens);
    }
  }

  lemma {:induction false} LeavesRestoredAll(entries: seq<Entry>, tokens: map<string, Json>)
    ensures LeavesAll(RestoreAll(entries, tokens)) == RestoredLeaves(LeavesAll(entries), tokens)
  {
    if entries != [] {
      LeavesRestored(entries[0].value, tokens);
      LeavesRestoredAll(entries[1..], tokens);
      RestoredConcat(Leaves(entries[0].value), LeavesAll(entries[1..]), tokens);
      assert RestoreAll(entries, tokens)[1..] == RestoreAll(entries[1..], tokens);
    }
  }

  // Every token stands for text, as in a response.
  ghost predicate TextTokens(tokens: map<string, Json>) {
    forall t :: t in tokens ==> tokens[t].Str?
  }

  lemma {:induction false} RestoredByPosition(leaves: seq<string>, tokens: map<string, Json>)
    requires TextTokens(tokens)
    ensures |RestoredLeaves(leaves, tokens)| == |leaves|
    ensures forall i :: 0 <= i < |leaves| ==>
              RestoredLeaves(leaves, tokens)[i] == if leaves[i] in tokens then tokens[leaves[i]].value else leaves[i]
  {
    if leaves != [] {
      RestoredByPosition(leaves[1..], tokens);
    }
  }

  lemma {:induction false} OnePlace(leaves: seq<string>, t: string)
    requires multiset(leaves)[t] == 1
    ensures exists i :: 0 <= i < |leaves| && leaves[i] == t && forall k :: 0 <= k < |leaves| && leaves[k] == t ==> k == i
  {
    var n := |leaves| - 1;
    assert t in multiset(leaves);
    assert leaves == leaves[..n] + [leaves[n]];
    if leaves[n] == t {
      assert t !in multiset(leaves[..n]);
      forall k | 0 <= k < n ensures leaves[k] != t {
        assert leaves[..n][k] in multiset(leaves[..n]);
      }
    } else {
      OnePlace(leaves[..n], t);
      var i :| 0 <= i < n && leaves[..n][i] == t && forall k :: 0 <= k < n && leaves[..n][k] == t ==> k == i;
      forall k | 0 <= k < |leaves| && leaves[k] == t ensures k == i {
        assert k < n && leaves[..n][k] == t;
      }
    }
  }

  /**
   * Linear use: for any accepted script output each protected text comes back at
   * exactly one place, the place of its token, and no other leaf changes.
   */
  lemma RestoredOnce(out: Json, tokens: map<string, Json>, serialized: nat)
    requires Accepted(out, tokens, serialized) && TextTokens(tokens)
    ensures var before, after := Leaves(out), Leaves(Restore(out, tokens));
      && |after| == |before|
      && (forall i :: 0 <= i < |before| && before[i] !in tokens ==> after[i] == before[i])
      && (forall t :: t in tokens ==> exists i ::
            && 0 <= i < |before| && before[i] == t && after[i] == tokens[t].value
            && forall k :: 0 <= k < |before| && before[k] == t ==> k == i)
  {
    LeavesRestored(out, tokens);
    RestoredByPosition(Leaves(out), tokens);
    forall t | t in tokens
      ensures exists i ::
        && 0 <= i < |Leaves(out)| && Leaves(out)[i] == t && Leaves(Restore(out, tokens))[i] == tokens[t].value
        && forall k :: 0 <= k < |Leaves(out)| && Leaves(out)[k] == t ==> k == i
    {
      assert Count(out, t) == 1;
      OnePlace(Leaves(out), t);
    }
  }

  // ------------------------------------------------------ hidden trees pass

  lemma {:induction false} HideCounts(v: Json, field: string, mode: Mode, names: seq<string>, t: string)
    requires |names| == |MediaIn(v, field, mode)| && t !in Leaves(v)
    ensures Count(Hide(v, field, mode, names), t) == multiset(names)[t]
  {
    if IsMedia(v, field, mode) {
      assert names == [names[0]];
    } else if v.Node? {
      HideCountsAll(v.entries, v.keyed, field, mode, names, t);
    } else {
      assert names == [];
    }
  }

  lemma CountSplit(hidden: seq<Entry>, names: seq<string>, n: nat, t: string)
    requires hidden != [] && n <= |names| && multiset(names[..n])[t] == Count(hidden[0].value, t)
    requires multiset(names[n..])[t] == multiset(LeavesAll(hidden[1..]))[t]
    ensures multiset(LeavesAll(hidden))[t] == multiset(names)[t]
  {
    assert names == names[..n] + names[n..];
  }

  lemma {:induction false} HideCountsAll(
    entries: seq<Entry>, keyed: bool, field: string, mode: Mode, names: seq<string>, t: string)
    requires |names| == |MediaInAll(entries, keyed, field, mode)| && t !in LeavesAll(entries)
    ensures multiset(LeavesAll(HideAll(entries, keyed, field, mode, names)))[t] == multiset(names)[t]
  {
    if entries == [] {
      assert names == [];
    } else {
      var field' := FieldOf(keyed, entries[0].key, field);
      var n := |MediaIn(entries[0].value, field', mode)|;
      HideCounts(entries[0].value, field', mode, names[..n], t);
      HideCountsAll(entries[1..], keyed, field, mode, names[n..], t);
      var hidden := HideAll(entries, keyed, field, mode, names);
      assert hidden[1..] == HideAll(entries[1..], keyed, field, mode, names[n..]);
      assert hidden[0].value == Hide(entries[0].value, field', mode, names[..n]);
      CountSplit(hidden, names, n, t);
    }
  }

  lemma {:induction false} DistinctOnce(names: seq<string>, t: string)
    requires Distinct(names) && t in names
    ensures multiset(names)[t] == 1
  {
    var n := |names| - 1;
    assert names == names[..n] + [names[n]];
    if names[n] == t {
      assert t !in names[..n];
      assert multiset(names[..n])[t] == 0;
    } else {
      DistinctOnce(names[..n], t);
    }
  }

  /** A hidden tree uses each of its tokens exactly once, so an unchanged tree passes that check. */
  lemma HiddenUsesTokensOnce(v: Json, mode: Mode, names: seq<string>)
    requires |names| == |MediaIn(v, "", mode)| && Fresh(names, v)
    ensures forall t :: t in Table(names, MediaIn(v, "", mode)) ==> Count(Hide(v, "", mode, names), t) == 1
  {
    forall t | t in Table(names, MediaIn(v, "", mode)) ensures Count(Hide(v, "", mode, names), t) == 1 {
      DistinctOnce(names, t);
      HideCounts(v, "", mode, names, t);
    }
  }

  /** The body together with the query and headers a script returned. */
  function Combined(body: Json, query: Json, headers: Json): Json {
    Node(true, [Entry("body", body), Entry("query", query), Entry("headers", headers)])
  }

  /** If body and combination both pass, no token was copied to the query or the headers. */
  lemma TokensStayInBody(body: Json, query: Json, headers: Json, tokens: map<string, Json>, size1: nat, size2: nat, t: string)
    requires Accepted(body, tokens, size1) && Accepted(Combined(body, query, headers), tokens, size2) && t in tokens
    ensures Count(query, t) == 0 && Count(headers, t) == 0
  {
    var all := Combined(body, query, headers);
    var e1 := [Entry("query", query), Entry("headers", headers)];
    var e2 := [Entry("headers", headers)];
    assert all.entries[1..] == e1 && e1[1..] == e2 && e2[1..] == [];
    assert LeavesAll(e2) == Leaves(headers) + LeavesAll([]);
    assert LeavesAll(e1) == Leaves(query) + LeavesAll(e2);
    assert Leaves(all) == Leaves(body) + LeavesAll(e1);
    assert Count(all, t) == Count(body, t) + Count(query, t) + Count(headers, t);
  }

  // ------------------------------------------------------------ the walkers

  /** The token table being filled while a tree is hidden; `ids` are the identifiers drawn. */
  class Vault {
    const ids: seq<string>
    var used: nat
    var tokens: map<string, Json>
    ghost var media: seq<Json>

    constructor (ids: seq<string>)
      ensures this.ids == ids && Valid() && used == 0 && media == []
    {
      this.ids, used, tokens, media := ids, 0, map[], [];
    }

    ghost predicate Valid()
      reads this
    {
      used <= |ids| && |media| == used && tokens == Table(ids[..used], media)
    }

    /** Replaces the media of a tree by the next tokens and files it in the table. */
    method Protect(v: Json, field: string, mode: Mode) returns (hidden: Json)
      requires Valid() && used + |MediaIn(v, field, mode)| <= |ids|
      modifies this
      ensures Valid() && media == old(media) + MediaIn(v, field, mode)
      ensures hidden == Hide(v, field, mode, ids[old(used)..used])
      decreases v
    {
      if IsMedia(v, field, mode) {
        hidden := Str(ids[used]);
        tokens := tokens[ids[used] := v];
        media := media + [v];
        assert ids[..used + 1][..used] == ids[..used] && media[..used] == old(media);
        used := used + 1;
      } else if v.Node? {
        var entries := ProtectAll(v.entries, v.keyed, field, mode);
        hidden := Node(v.keyed, entries);
      } else {
        hidden := v;
      }
    }

    method ProtectAll(entries: seq<Entry>, keyed: bool, field: string, mode: Mode) returns (hidden: seq<Entry>)
      requires Valid() && used + |MediaInAll(entries, keyed, field, mode)| <= |ids|
      modifies this
      ensures Valid() && media == old(media) + MediaInAll(entries, keyed, field, mode)
      ensures hidden == HideAll(entries, keyed, field, mode, ids[old(used)..used])
      decreases entries
    {
      if entries == [] {
        return [];
      }
      ghost var start, was := used, media;
      ghost var a := MediaIn(entries[0].value, FieldOf(keyed, entries[0].key, field), mode);
      ghost var b := MediaInAll(entries[1..], keyed, field, mode);
      var first := Protect(entries[0].value, FieldOf(keyed, entries[0].key, field), mode);
      var rest := ProtectAll(entries[1..], keyed, field, mode);
      assert (was + a) + b == was + (a + b);
      HideJoins(entries, keyed, field, mode, ids, start, start + |a|, used, first, rest);
      return [Entry(entries[0].key, first)] + rest;
    }
  }

  lemma HideJoins(
    entries: seq<Entry>, keyed: bool, field: string, mode: Mode, ids: seq<string>, start: nat, mid: nat, end: nat,
    first: Json, rest: seq<Entry>)
    requires entries != [] && start <= mid <= end <= |ids|
    requires mid - start == |MediaIn(entries[0].value, FieldOf(keyed, entries[0].key, field), mode)|
    requires end - mid == |MediaInAll(entries[1..], keyed, field, mode)|
    requires first == Hide(entries[0].value, FieldOf(keyed, entries[0].key, field), mode, ids[start..mid])
    requires rest == HideAll(entries[1..], keyed, field, mode, ids[mid..end])
    ensures [Entry(entries[0].key, first)] + rest == HideAll(entries, keyed, field, mode, ids[start..end])
  {
    var names := ids[start..end];
    assert names[..mid - start] == ids[start..mid] && names[mid - start..] == ids[mid..end];
  }

  /** Hides the media of a whole tree. */
  method ProtectTree(v: Json, mode: Mode, ids: seq<string>) returns (hidden: Json, tokens: map<string, Json>)
    requires |ids| == |MediaIn(v, "", mode)|
    ensures hidden == Hide(v, "", mode, ids) && tokens == Table(ids, MediaIn(v, "", mode))
    ensures Fresh(ids, v) ==> Restore(hidden, tokens) == v
  {
    var vault := new Vault(ids);
    hidden := vault.Protect(v, "", mode);
    tokens := vault.tokens;
    assert vault.media == MediaIn(v, "", mode);
    assert ids[0..vault.used] == ids && ids[..vault.used] == ids;
    if Fresh(ids, v) {
      RoundTrip(v, mode, ids);
    }
  }

  /** The check of one tree: running counters over a recursive visit. */
  class Validator {
    const tokens: map<string, Json>
    var counts: map<string, nat>
    var nodes: nat

    constructor (tokens: map<string, Json>)
      ensures this.tokens == tokens && nodes == 0 && forall t :: Seen(t) == 0
    {
      this.tokens, counts, nodes := tokens, map[], 0;
    }

    function Seen(t: string): nat
      reads this
    {
      if t in counts then counts[t] else 0
    }

    /** Visits a tree; on success the counters grew by what it holds. */
    method Visit(v: Json, depth: nat) returns (ok: bool)
      requires nodes <= MAX_NODES
      modifies this
      ensures ok <==> old(nodes) + Nodes(v) <= MAX_NODES && WithinDepth(v, depth) && Clean(v, tokens)
      ensures ok ==> nodes == old(nodes) + Nodes(v)
      ensures ok ==> forall t :: t in tokens ==> Seen(t) == old(Seen(t)) + Count(v, t)
      decreases v
    {
      nodes := nodes + 1;
      if nodes > MAX_NODES || depth > MAX_DEPTH {
        return false;
      }
      match v
      case Str(s) =>
        if s in tokens {
          counts := counts[s := Seen(s) + 1];
        } else if tokens != map[] && StartsWith(s, TOKEN_PREFIX) {
          return false;
        }
        return true;
      case Node(keyed, entries) =>
        ok := VisitAll(entries, keyed, depth + 1);
      case _ =>
        return true;
    }

    method VisitAll(entries: seq<Entry>, keyed: bool, depth: nat) returns (ok: bool)
      requires nodes <= MAX_NODES
      modifies this
      ensures ok <==> old(nodes) + NodesAll(entries) <= MAX_NODES && WithinDepthAll(entries, depth) && CleanAll(entries, keyed, tokens)
      ensures ok ==> nodes == old(nodes) + NodesAll(entries)
      ensures ok ==> forall t :: t in tokens ==> Seen(t) == old(Seen(t)) + multiset(LeavesAll(entries))[t]
      decreases entries
    {
      if entries == [] {
        return true;
      }
      if keyed && !KeyAllowed(entries[0].key, tokens) {
        return false;
      }
      ok := Visit(entries[0].value, depth);
      if ok {
        ok := VisitAll(entries[1..], keyed, depth);
      }
    }
  }

  /** Decides acceptance of a script's output. */
  method ValidateTree(v: Json, tokens: map<string, Json>, serialized: nat) returns (ok: bool)
    ensures ok <==> Accepted(v, tokens, serialized)
  {
    var validator := new Validator(tokens);
    ok := validator.Visit(v, 0);
    if !ok {
      return;
    }
    var todo := tokens.Keys;
    while todo != {}
      invariant todo <= tokens.Keys
      invariant forall t :: t in tokens && t !in todo ==> Count(v, t) == 1
    {
      var t :| t in todo;
      if validator.Seen(t) != 1 {
        return false;
      }
      todo := todo - {t};
    }
    return serialized <= MAX_SERIALIZED;
  }
}
