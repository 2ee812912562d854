/**
 * Encoding a script's request body as a multipart form: every file token at the
 * top level becomes one file part, and everything else becomes plain fields.
 */
module Multipart {
  import opened Prelude
  import opened MediaTokens

  // A plain part keeps the value whose text it carries.
  datatype Part = FilePart(name: string, filename: string, mime: string, data: seq<int>) | Field(name: string, value: Json)

  datatype EncodeError = NotAnObject | BadFieldName | NestedFile

  predicate HasLineBreak(s: string) {
    '\r' in s || '\n' in s
  }

  function StripLineBreaks(s: string): (r: string)
    ensures !HasLineBreak(r) && (!HasLineBreak(s) ==> r == s)
  {
    if s == "" then ""
    else
      assert s == [s[0]] + s[1..];
      (if s[0] == '\r' || s[0] == '\n' then "" else [s[0]]) + StripLineBreaks(s[1..])
  }

  /** A token stands for a file in a request. */
  ghost predicate FileTokens(tokens: map<string, Json>) {
    forall t :: t in tokens ==> tokens[t].File?
  }

  predicate IsFileToken(v: Json, tokens: map<string, Json>) {
    v.Str? && v.value in tokens && tokens[v.value].File?
  }

  function PartOf(name: string, media: Json): Part
    requires media.File?
  {
    FilePart(name, StripLineBreaks(media.file.name), media.file.mime, media.file.data)
  }

  /** The values of one field: a list contributes each of its elements. */
  function ValuesOf(v: Json): seq<Json> {
    if v.Node? && !v.keyed then Values(v.entries) else [v]
  }

  function Values(entries: seq<Entry>): seq<Json> {
    if entries == [] then [] else [entries[0].value] + Values(entries[1..])
  }

  /** Whether a token occurs anywhere in a value. */
  predicate Nests(v: Json, tokens: map<string, Json>) {
    match v
    case Str(s) => s in tokens
    case Node(_, entries) => NestsAny(entries, tokens)
    case _ => false
  }

  predicate NestsAny(entries: seq<Entry>, tokens: map<string, Json>) {
    entries != [] && (Nests(entries[0].value, tokens) || NestsAny(entries[1..], tokens))
  }

  function EncodeValue(name: string, v: Json, tokens: map<string, Json>): Result<seq<Part>, EncodeError> {
    if v.Null? then Ok([])
    else if IsFileToken(v, tokens) then Ok([PartOf(name, tokens[v.value])])
    else if Nests(v, tokens) then Err(NestedFile)
    else Ok([Field(name, v)])
  }

  function EncodeValues(name: string, values: seq<Json>, tokens: map<string, Json>): Result<seq<Part>, EncodeError> {
    if values == [] then Ok([])
    else
      var earlier :- EncodeValues(name, values[..|values| - 1], tokens);
      var last :- EncodeValue(name, values[|values| - 1], tokens);
      Ok(earlier + last)
  }

  function EncodeFields(fields: seq<Entry>, tokens: map<string, Json>): Result<seq<Part>, EncodeError> {
    if fields == [] then Ok([])
    else
      var earlier :- EncodeFields(fields[..|fields| - 1], tokens);
      var last := fields[|fields| - 1];
      if HasLineBreak(last.key) then Err(BadFieldName)
      else
        var parts :- EncodeValues(last.key, ValuesOf(last.value), tokens);
        Ok(earlier + parts)
  }

  function InsertField(e: Entry, fields: seq<Entry>): (r: seq<Entry>)
    ensures multiset(r) == multiset(fields) + multiset{e}
  {
    if fields == [] then [e]
    else
      assert fields == [fields[0]] + fields[1..];
      if TextBefore(e.key, fields[0].key) then [e] + fields else [fields[0]] + InsertField(e, fields[1..])
  }

  /** The fields in key order. */
  function SortFields(fields: seq<Entry>): (r: seq<Entry>)
    ensures multiset(r) == multiset(fields)
  {
    if fields == [] then []
    else
      assert fields == [fields[0]] + fields[1..];
      InsertField(fields[0], SortFields(fields[1..]))
  }

  function Encode(body: Json, tokens: map<string, Json>): Result<seq<Part>, EncodeError> {
    if body.Node? && body.keyed then EncodeFields(SortFields(body.entries), tokens) else Err(NotAnObject)
  }

  // --------------------------------------------------------------- encoder

  lemma {:induction false} ValuesStop(name: string, values: seq<Json>, k: nat, n: nat, tokens: map<string, Json>)
    requires k <= n <= |values| && EncodeValues(name, values[..k], tokens).Err?
    ensures EncodeValues(name, values[..n], tokens) == EncodeValues(name, values[..k], tokens)
  {
    if k < n {
      ValuesStop(name, values, k, n - 1, tokens);
      assert values[..n][..n - 1] == values[..n - 1];
    }
  }

  lemma {:induction false} FieldsStop(fields: seq<Entry>, k: nat, n: nat, tokens: map<string, Json>)
    requires k <= n <= |fields| && EncodeFields(fields[..k], tokens).Err?
    ensures EncodeFields(fields[..n], tokens) == EncodeFields(fields[..k], tokens)
  {
    if k < n {
      FieldsStop(fields, k, n - 1, tokens);
      assert fields[..n][..n - 1] == fields[..n - 1];
    }
  }

  /** Writes the values of one field. */
  method WriteValues(name: string, values: seq<Json>, tokens: map<string, Json>) returns (r: Result<seq<Part>, EncodeError>)
    ensures r == EncodeValues(name, values, tokens)
  {
    var buffer: seq<Part> := [];
    var k := 0;
    while k < |values|
      invariant 0 <= k <= |values| && EncodeValues(name, values[..k], tokens) == Ok(buffer)
    {
      assert values[..k + 1][..k] == values[..k];
      assert buffer + [] == buffer;
      if !values[k].Null? {
        if IsFileToken(values[k], tokens) {
          buffer := buffer + [PartOf(name, tokens[values[k].value])];
        } else if Nests(values[k], tokens) {
          ValuesStop(name, values, k + 1, |values|, tokens);
          assert values[..|values|] == values;
          return Err(NestedFile);
        } else {
          buffer := buffer + [Field(name, values[k])];
        }
      }
      k := k + 1;
    }
    assert values[..k] == values;
    return Ok(buffer);
  }

  /** Writes one field. */
  method WriteField(field: Entry, tokens: map<string, Json>) returns (r: Result<seq<Part>, EncodeError>)
    ensures r == if HasLineBreak(field.key) then Err(BadFieldName) else EncodeValues(field.key, ValuesOf(field.value), tokens)
  {
    if HasLineBreak(field.key) {
      return Err(BadFieldName);
    }
    r := WriteValues(field.key, ValuesOf(field.value), tokens);
  }

  /** Writes the fields one after the other into one buffer. */
  method WriteFields(fields: seq<Entry>, tokens: map<string, Json>) returns (r: Result<seq<Part>, EncodeError>)
    ensures r == EncodeFields(fields, tokens)
  {
    var buffer: seq<Part> := [];
    var k := 0;
    while k < |fields|
      invariant 0 <= k <= |fields| && EncodeFields(fields[..k], tokens) == Ok(buffer)
    {
      assert fields[..k + 1][..k] == fields[..k];
      var written := WriteField(fields[k], tokens);
      if written.Err? {
        FieldsStop(fields, k + 1, |fields|, tokens);
        assert fields[..|fields|] == fields;
        return Err(written.error);
      }
      buffer := buffer + written.value;
      k := k + 1;
    }
    assert fields[..k] == fields;
    return Ok(buffer);
  }

  /** Encodes a body, its fields in key order. */
  method EncodeMultipart(body: Json, tokens: map<string, Json>) returns (r: Result<seq<Part>, EncodeError>)
    ensures r == Encode(body, tokens)
  {
    if !body.Node? || !body.keyed {
      return Err(NotAnObject);
    }
    r := WriteFields(SortFields(body.entries), tokens);
  }

  // ------------------------------------------------------- tokens and parts

  /** Tokens of a leaf sequence, in order. */
  function TokensAmong(leaves: seq<string>, tokens: map<string, Json>): seq<string> {
    if leaves == [] then []
    else (if leaves[0] in tokens then [leaves[0]] else []) + TokensAmong(leaves[1..], tokens)
  }

  lemma {:induction false} TokensConcat(a: seq<string>, b: seq<string>, tokens: map<string, Json>)
    ensures TokensAmong(a + b, tokens) == TokensAmong(a, tokens) + TokensAmong(b, tokens)
  {
    if a == [] {
      assert a + b == b;
    } else {
      TokensConcat(a[1..], b, tokens);
      ConcatUncons(a, b);
      ConcatAssociative(if a[0] in tokens then [a[0]] else [], TokensAmong(a[1..], tokens), TokensAmong(b, tokens));
    }
  }

  /** What a part list contributes for a list of tokens: one file part each, in order. */
  function FilesOf(parts: seq<Part>): seq<MediaFile> {
    if parts == [] then [] else FilesOfPart(parts[0]) + FilesOf(parts[1..])
  }

  function FilesOfPart(part: Part): seq<MediaFile> {
    if part.FilePart? then [MediaFile(part.filename, part.mime, part.data)] else []
  }

  function Sendable(media: Json): MediaFile
    requires media.File?
  {
    media.file.(name := StripLineBreaks(media.file.name))
  }

  // Every listed token stands for a file.
  ghost predicate AllFiles(names: seq<string>, tokens: map<string, Json>) {
    forall t :: t in names ==> t in tokens && tokens[t].File?
  }

  ghost function FilesFor(names: seq<string>, tokens: map<string, Json>): seq<MediaFile>
    requires AllFiles(names, tokens)
  {
    if names == [] then [] else [Sendable(tokens[names[0]])] + FilesFor(names[1..], tokens)
  }

  lemma {:induction false} FilesConcat(a: seq<Part>, b: seq<Part>)
    ensures FilesOf(a + b) == FilesOf(a) + FilesOf(b)
  {
    if a == [] {
      assert a + b == b;
    } else {
      FilesConcat(a[1..], b);
      ConcatUncons(a, b);
      ConcatAssociative(FilesOfPart(a[0]), FilesOf(a[1..]), FilesOf(b));
    }
  }

  lemma {:induction false} FilesForConcat(a: seq<string>, b: seq<string>, tokens: map<string, Json>)
    requires AllFiles(a, tokens)
    requires AllFiles(b, tokens)
    ensures FilesFor(a + b, tokens) == FilesFor(a, tokens) + FilesFor(b, tokens)
  {
    if a == [] {
      assert a + b == b;
    } else {
      FilesForConcat(a[1..], b, tokens);
      ConcatUncons(a, b);
      ConcatAssociative([Sendable(tokens[a[0]])], FilesFor(a[1..], tokens), FilesFor(b, tokens));
    }
  }

  lemma {:induction false} NothingNested(v: Json, tokens: map<string, Json>)
    requires !Nests(v, tokens)
    ensures TokensAmong(Leaves(v), tokens) == []
  {
    if v.Node? {
      NothingNestedAll(v.entries, tokens);
    }
  }

  lemma {:induction false} NothingNestedAll(entries: seq<Entry>, tokens: map<string, Json>)
    requires !NestsAny(entries, tokens)
    ensures TokensAmong(LeavesAll(entries), tokens) == []
  {
    if entries != [] {
      NothingNested(entries[0].value, tokens);
      NothingNestedAll(entries[1..], tokens);
      TokensConcat(Leaves(entries[0].value), LeavesAll(entries[1..]), tokens);
    }
  }

  /** String leaves of a list of values. */
  function LeavesOf(values: seq<Json>): seq<string> {
    if values == [] then [] else LeavesOf(values[..|values| - 1]) + Leaves(values[|values| - 1])
  }

  lemma {:induction false} LeavesOfFront(v: Json, values: seq<Json>)
    ensures LeavesOf([v] + values) == Leaves(v) + LeavesOf(values)
  {
    if values == [] {
      assert [v] + values == [v];
      assert [v][..0] == [];
    } else {
      var n := |values| - 1;
      LeavesOfFront(v, values[..n]);
      assert ([v] + values)[..n + 1] == [v] + values[..n];
    }
  }

  lemma {:induction false} ValuesLeaves(entries: seq<Entry>)
    ensures LeavesOf(Values(entries)) == LeavesAll(entries)
  {
    if entries != [] {
      ValuesLeaves(entries[1..]);
      LeavesOfFront(entries[0].value, Values(entries[1..]));
    }
  }

  lemma ValuesOfLeaves(v: Json)
    ensures LeavesOf(ValuesOf(v)) == Leaves(v)
  {
    if v.Node? && !v.keyed {
      ValuesLeaves(v.entries);
    } else {
      assert [v][..0] == [];
    }
  }

  // A part list sends exactly the given tokens' files, and its plain fields hold no token.
  ghost predicate Sends(parts: seq<Part>, leaves: seq<string>, tokens: map<string, Json>) {
    && AllFiles(TokensAmong(leaves, tokens), tokens)
    && FilesOf(parts) == FilesFor(TokensAmong(leaves, tokens), tokens)
    && (forall i :: 0 <= i < |parts| && parts[i].Field? ==> !Nests(parts[i].value, tokens))
  }

  lemma SendsConcat(a: seq<Part>, b: seq<Part>, la: seq<string>, lb: seq<string>, tokens: map<string, Json>)
    requires Sends(a, la, tokens) && Sends(b, lb, tokens)
    ensures Sends(a + b, la + lb, tokens)
  {
    TokensConcat(la, lb, tokens);
    FilesConcat(a, b);
    FilesForConcat(TokensAmong(la, tokens), TokensAmong(lb, tokens), tokens);
  }

  lemma ValueSends(name: string, v: Json, tokens: map<string, Json>)
    requires FileTokens(tokens) && EncodeValue(name, v, tokens).Ok?
    ensures Sends(EncodeValue(name, v, tokens).value, Leaves(v), tokens)
  {
    var parts := EncodeValue(name, v, tokens).value;
    if IsFileToken(v, tokens) {
      assert [v.value][1..] == [] && parts[1..] == [];
      assert TokensAmong(Leaves(v), tokens) == [v.value];
      assert FilesFor([v.value], tokens) == [Sendable(tokens[v.value])];
    } else if v.Null? {
      assert Leaves(v) == [];
    } else {
      NothingNested(v, tokens);
      assert parts[1..] == [];
    }
  }

  lemma {:induction false} ValuesSend(name: string, values: seq<Json>, tokens: map<string, Json>)
    requires FileTokens(tokens) && EncodeValues(name, values, tokens).Ok?
    ensures Sends(EncodeValues(name, values, tokens).value, LeavesOf(values), tokens)
  {
    if values != [] {
      var n := |values| - 1;
      ValuesSend(name, values[..n], tokens);
      ValueSends(name, values[n], tokens);
      SendsConcat(EncodeValues(name, values[..n], tokens).value, EncodeValue(name, values[n], tokens).value,
                  LeavesOf(values[..n]), Leaves(values[n]), tokens);
    }
  }

  function FieldLeaves(fields: seq<Entry>): seq<string> {
    if fields == [] then [] else FieldLeaves(fields[..|fields| - 1]) + Leaves(fields[|fields| - 1].value)
  }

  lemma {:induction false} FieldsSend(fields: seq<Entry>, tokens: map<string, Json>)
    requires FileTokens(tokens) && EncodeFields(fields, tokens).Ok?
    ensures Sends(EncodeFields(fields, tokens).value, FieldLeaves(fields), tokens)
  {
    if fields != [] {
      var n := |fields| - 1;
      var last := fields[n];
      FieldsSend(fields[..n], tokens);
      ValuesSend(last.key, ValuesOf(last.value), tokens);
      ValuesOfLeaves(last.value);
      SendsConcat(EncodeFields(fields[..n], tokens).value, EncodeValues(last.key, ValuesOf(last.value), tokens).value,
                  FieldLeaves(fields[..n]), Leaves(last.value), tokens);
    }
  }

  // -------------------------------------------------------------- theorems

  lemma {:induction false} EntryCount(entries: seq<Entry>, t: string)
    ensures multiset(FieldLeaves(entries))[t] == multiset(LeavesAll(entries))[t]
  {
    if entries != [] {
      EntryCount(entries[1..], t);
      FieldLeavesFront(entries[0], entries[1..]);
      assert entries == [entries[0]] + entries[1..];
    }
  }

  lemma {:induction false} FieldLeavesFront(e: Entry, fields: seq<Entry>)
    ensures FieldLeaves([e] + fields) == Leaves(e.value) + FieldLeaves(fields)
  {
    if fields == [] {
      assert [e] + fields == [e] && [e][..0] == [];
    } else {
      var n := |fields| - 1;
      FieldLeavesFront(e, fields[..n]);
      assert ([e] + fields)[..n + 1] == [e] + fields[..n];
    }
  }

  lemma {:induction false} InsertLeaves(e: Entry, fields: seq<Entry>)
    ensures multiset(LeavesAll(InsertField(e, fields))) == multiset(Leaves(e.value)) + multiset(LeavesAll(fields))
  {
    if fields == [] {
      assert [e][1..] == [];
    } else if TextBefore(e.key, fields[0].key) {
      assert ([e] + fields)[1..] == fields;
    } else {
      InsertLeaves(e, fields[1..]);
      assert InsertField(e, fields)[1..] == InsertField(e, fields[1..]);
    }
  }

  /** Sorting the fields keeps their leaves. */
  lemma {:induction false} SortLeaves(fields: seq<Entry>)
    ensures multiset(LeavesAll(SortFields(fields))) == multiset(LeavesAll(fields))
  {
    if fields != [] {
      SortLeaves(fields[1..]);
      InsertLeaves(fields[0], SortFields(fields[1..]));
    }
  }

  lemma {:induction false} TokensCount(leaves: seq<string>, tokens: map<string, Json>, t: string)
    ensures multiset(TokensAmong(leaves, tokens))[t] == if t in tokens then multiset(leaves)[t] else 0
  {
    if leaves != [] {
      TokensCount(leaves[1..], tokens, t);
      assert leaves == [leaves[0]] + leaves[1..];
    }
  }

  lemma FilesWithout(names: seq<string>, i: nat, tokens: map<string, Json>)
    requires i < |names| && AllFiles(names, tokens)
    ensures var rest := names[..i] + names[i + 1..];
      && (forall t :: t in rest ==> t in names)
      && multiset(names) == multiset(rest) + multiset{names[i]}
      && multiset(FilesFor(names, tokens)) == multiset(FilesFor(rest, tokens)) + multiset{Sendable(tokens[names[i]])}
  {
    var a, b := names[..i], names[i + 1..];
    assert names == a + ([names[i]] + b);
    FilesForConcat(a, [names[i]] + b, tokens);
    FilesForConcat([names[i]], b, tokens);
    FilesForConcat(a, b, tokens);
    assert [names[i]][1..] == [];
    assert FilesFor([names[i]], tokens) == [Sendable(tokens[names[i]])];
  }

  lemma IndexIn(a: seq<string>, b: seq<string>) returns (i: nat)
    requires a != [] && multiset(a) == multiset(b)
    ensures i < |b| && b[i] == a[0]
  {
    assert a[0] in multiset(b);
    i :| 0 <= i < |b| && b[i] == a[0];
  }

  lemma Cancel<T>(x: multiset<T>, y: multiset<T>, e: T)
    requires x + multiset{e} == y + multiset{e}
    ensures x == y
  {
    forall k ensures x[k] == y[k] {
      assert (x + multiset{e})[k] == (y + multiset{e})[k];
    }
  }

  lemma WithoutOne(names: seq<string>, i: nat)
    requires i < |names|
    ensures multiset(names) == multiset(names[..i] + names[i + 1..]) + multiset{names[i]}
  {
    assert names == names[..i] + ([names[i]] + names[i + 1..]);
  }

  lemma TailsSame(a: seq<string>, b: seq<string>, i: nat)
    requires a != [] && i < |b| && b[i] == a[0] && multiset(a) == multiset(b)
    ensures multiset(a[1..]) == multiset(b[..i] + b[i + 1..])
  {
    WithoutOne(a, 0);
    WithoutOne(b, i);
    assert a[..0] + a[1..] == a[1..];
    Cancel(multiset(a[1..]), multiset(b[..i] + b[i + 1..]), a[0]);
  }

  lemma FilesBack(a: seq<string>, b: seq<string>, i: nat, tokens: map<string, Json>)
    requires a != [] && i < |b| && b[i] == a[0] && AllFiles(a, tokens) && AllFiles(b, tokens)
    requires var rest := b[..i] + b[i + 1..];
      AllFiles(a[1..], tokens) && AllFiles(rest, tokens)
      && multiset(FilesFor(a[1..], tokens)) == multiset(FilesFor(rest, tokens))
    ensures multiset(FilesFor(a, tokens)) == multiset(FilesFor(b, tokens))
  {
    FilesWithout(b, i, tokens);
    FilesWithout(a, 0, tokens);
    assert a[..0] + a[1..] == a[1..];
  }

  lemma {:induction false} SameFiles(a: seq<string>, b: seq<string>, tokens: map<string, Json>)
    requires AllFiles(a, tokens)
    requires AllFiles(b, tokens)
    requires multiset(a) == multiset(b)
    ensures multiset(FilesFor(a, tokens)) == multiset(FilesFor(b, tokens))
  {
    if a == [] {
      assert |multiset(b)| == 0;
    } else {
      var i := IndexIn(a, b);
      TailsSame(a, b, i);
      SameFiles(a[1..], b[..i] + b[i + 1..], tokens);
      FilesBack(a, b, i, tokens);
    }
  }

  lemma SentOnceEach(body: Json, tokens: map<string, Json>, names: seq<string>, leaves: seq<string>)
    requires forall t | t in tokens :: Count(body, t) == 1
    requires Distinct(names) && forall t :: t in names <==> t in tokens
    requires multiset(leaves) == multiset(Leaves(body))
    ensures multiset(TokensAmong(leaves, tokens)) == multiset(names)
  {
    forall t ensures multiset(TokensAmong(leaves, tokens))[t] == multiset(names)[t] {
      TokensCount(leaves, tokens, t);
      if t in names {
        DistinctOnce(names, t);
        assert Count(body, t) == 1;
      }
    }
  }

  /** The tokens of an accepted, encoded body are sent once each. */
  lemma BodySendsTokensOnce(body: Json, tokens: map<string, Json>, serialized: nat, names: seq<string>)
    requires FileTokens(tokens) && Accepted(body, tokens, serialized) && Encode(body, tokens).Ok?
    requires Distinct(names) && forall t :: t in names <==> t in tokens
    ensures AllFiles(names, tokens)
    ensures multiset(FilesOf(Encode(body, tokens).value)) == multiset(FilesFor(names, tokens))
    ensures forall p :: p in Encode(body, tokens).value && p.Field? ==> !Nests(p.value, tokens)
  {
    SortedBodySends(body, tokens);
    var leaves :| multiset(leaves) == multiset(Leaves(body)) && Sends(Encode(body, tokens).value, leaves, tokens);
    SentOnceEach(body, tokens, names, leaves);
    SameFiles(TokensAmong(leaves, tokens), names, tokens);
  }

  function SendableAll(media: seq<Json>): seq<MediaFile>
    requires forall m :: m in media ==> m.File?
  {
    if media == [] then [] else [Sendable(media[0])] + SendableAll(media[1..])
  }

  lemma {:induction false} RequestMediaFiles(v: Json, field: string)
    ensures forall m :: m in MediaIn(v, field, Request) ==> m.File?
  {
    if !IsMedia(v, field, Request) && v.Node? {
      RequestMediaFilesAll(v.entries, v.keyed, field);
    }
  }

  lemma {:induction false} RequestMediaFilesAll(entries: seq<Entry>, keyed: bool, field: string)
    ensures forall m :: m in MediaInAll(entries, keyed, field, Request) ==> m.File?
  {
    if entries != [] {
      RequestMediaFiles(entries[0].value, FieldOf(keyed, entries[0].key, field));
      RequestMediaFilesAll(entries[1..], keyed, field);
    }
  }

  lemma {:induction false} TableFiles(names: seq<string>, media: seq<Json>, tokens: map<string, Json>)
    requires Maps(tokens, names, media) && forall m :: m in media ==> m.File?
    ensures AllFiles(names, tokens)
    ensures FilesFor(names, tokens) == SendableAll(media)
  {
    forall t | t in names ensures t in tokens && tokens[t].File? {
      var i :| 0 <= i < |names| && names[i] == t;
      assert media[i] in media;
    }
    if names != [] {
      assert Maps(tokens, names[1..], media[1..]);
      TableFiles(names[1..], media[1..], tokens);
    }
  }

  /**
   * The form keeps every file: whatever a script made of the tokenised body, if it
   * is accepted and encodes, the form holds exactly one file part per file of the
   * original body with its name (line breaks removed), type and bytes, and no
   * plain field holds a token.
   */
  lemma FormKeepsEveryFile(body: Json, names: seq<string>, out: Json, serialized: nat)
    requires |names| == |MediaIn(body, "", Request)| && Fresh(names, body)
    requires var tokens := Table(names, MediaIn(body, "", Request));
      Accepted(out, tokens, serialized) && Encode(out, tokens).Ok?
    ensures forall m :: m in MediaIn(body, "", Request) ==> m.File?
    ensures var parts := Encode(out, Table(names, MediaIn(body, "", Request))).value;
      && multiset(FilesOf(parts)) == multiset(SendableAll(MediaIn(body, "", Request)))
      && forall p :: p in parts && p.Field? ==> !Nests(p.value, Table(names, MediaIn(body, "", Request)))
  {
    var media := MediaIn(body, "", Request);
    var tokens := Table(names, media);
    RequestMediaFiles(body, "");
    TableMaps(names, media);
    TableFiles(names, media, tokens);
    BodySendsTokensOnce(out, tokens, serialized, names);
  }

  // Whether a text occurs inside another.
  predicate Contains(s: string, part: string) {
    StartsWith(s, part) || (s != "" && Contains(s[1..], part))
  }

  lemma SortedBodySends(body: Json, tokens: map<string, Json>)
    requires FileTokens(tokens) && Encode(body, tokens).Ok?
    ensures exists leaves ::
      multiset(leaves) == multiset(Leaves(body)) && Sends(Encode(body, tokens).value, leaves, tokens)
  {
    FieldsSend(SortFields(body.entries), tokens);
    SortedLeaves(body.entries);
  }

  lemma SortedLeaves(entries: seq<Entry>)
    ensures multiset(FieldLeaves(SortFields(entries))) == multiset(LeavesAll(entries))
  {
    var fields := SortFields(entries);
    SortLeaves(entries);
    forall t ensures multiset(FieldLeaves(fields))[t] == multiset(LeavesAll(entries))[t] {
      EntryCount(fields, t);
    }
  }

  // ----------------------------------------------------------------- leaks

  /**
   * Whether a text shows up when a value is written: in a string outside the
   * tokens, a number or truth value, or a key. JSON escapes neither make nor break
   * token text, which is letters, digits and underscores.
   */
  predicate Writes(v: Json, tokens: map<string, Json>, t: string) {
    match v
    case Str(s) => s !in tokens && Contains(s, t)
    case Plain(text) => Contains(text, t)
    case Node(keyed, entries) => WritesAny(entries, keyed, tokens, t)
    case _ => false
  }

  predicate WritesAny(entries: seq<Entry>, keyed: bool, tokens: map<string, Json>, t: string) {
    entries != []
    && ((keyed && Contains(entries[0].key, t)) || Writes(entries[0].value, tokens, t) || WritesAny(entries[1..], keyed, tokens, t))
  }

  // Whether a part of the form shows a text, its files' own names and bytes aside.
  predicate PartShows(p: Part, t: string) {
    Contains(p.name, t) || (p.Field? && Writes(p.value, map[], t))
  }

  ghost predicate FormShows(parts: seq<Part>, t: string) {
    exists p :: p in parts && PartShows(p, t)
  }

  // Whether a field of the body is written at all; nulls are not.
  predicate Written(v: Json) {
    exists x | x in ValuesOf(v) :: !x.Null?
  }

  /** Whether a script put a text into a field: into the name of one that is written, a key, or a longer string. */
  predicate FieldEmbeds(e: Entry, tokens: map<string, Json>, t: string) {
    (Written(e.value) && Contains(e.key, t)) || Writes(e.value, tokens, t)
  }

  predicate Embeds(fields: seq<Entry>, tokens: map<string, Json>, t: string) {
    exists e | e in fields :: FieldEmbeds(e, tokens, t)
  }

  lemma {:induction false} WrittenPlainly(v: Json, tokens: map<string, Json>, t: string)
    requires !Nests(v, tokens)
    ensures Writes(v, tokens, t) <==> Writes(v, map[], t)
  {
    if v.Node? {
      WrittenPlainlyAny(v.entries, v.keyed, tokens, t);
    }
  }

  lemma {:induction false} WrittenPlainlyAny(entries: seq<Entry>, keyed: bool, tokens: map<string, Json>, t: string)
    requires !NestsAny(entries, tokens)
    ensures WritesAny(entries, keyed, tokens, t) <==> WritesAny(entries, keyed, map[], t)
  {
    if entries != [] {
      WrittenPlainly(entries[0].value, tokens, t);
      WrittenPlainlyAny(entries[1..], keyed, tokens, t);
    }
  }

  lemma ShowsConcat(a: seq<Part>, b: seq<Part>, t: string)
    ensures FormShows(a + b, t) <==> FormShows(a, t) || FormShows(b, t)
  {
  }

  // What encoding one value shows.
  predicate ValueShows(name: string, v: Json, tokens: map<string, Json>, t: string) {
    !v.Null? && (Contains(name, t) || Writes(v, tokens, t))
  }

  lemma EncodedValueShows(name: string, v: Json, tokens: map<string, Json>, t: string)
    requires EncodeValue(name, v, tokens).Ok?
    ensures FormShows(EncodeValue(name, v, tokens).value, t) <==> ValueShows(name, v, tokens, t)
  {
    var parts := EncodeValue(name, v, tokens).value;
    if parts != [] {
      assert parts == [parts[0]] && parts[0] in parts;
      if parts[0].Field? {
        WrittenPlainly(v, tokens, t);
      }
    }
  }

  ghost predicate AnyShows(name: string, values: seq<Json>, tokens: map<string, Json>, t: string) {
    exists v :: v in values && ValueShows(name, v, tokens, t)
  }

  lemma AnyShowsConcat(name: string, a: seq<Json>, b: seq<Json>, tokens: map<string, Json>, t: string)
    ensures AnyShows(name, a + b, tokens, t) <==> AnyShows(name, a, tokens, t) || AnyShows(name, b, tokens, t)
  {
  }

  lemma {:induction false} EncodedValuesShow(name: string, values: seq<Json>, tokens: map<string, Json>, t: string)
    requires EncodeValues(name, values, tokens).Ok?
    ensures FormShows(EncodeValues(name, values, tokens).value, t) <==> AnyShows(name, values, tokens, t)
  {
    if values != [] {
      var n := |values| - 1;
      var last := [values[n]];
      EncodedValuesShow(name, values[..n], tokens, t);
      EncodedValueShows(name, values[n], tokens, t);
      ShowsConcat(EncodeValues(name, values[..n], tokens).value, EncodeValue(name, values[n], tokens).value, t);
      assert values[..n] + last == values;
      AnyShowsConcat(name, values[..n], last, tokens, t);
      assert AnyShows(name, last, tokens, t) <==> ValueShows(name, values[n], tokens, t) by {
        assert values[n] in last;
      }
      assert AnyShows(name, values[..n] + last, tokens, t) <==> AnyShows(name, values, tokens, t);
    }
  }

  ghost predicate SomeWrites(values: seq<Json>, tokens: map<string, Json>, t: string) {
    exists v :: v in values && Writes(v, tokens, t)
  }

  lemma SomeWritesFirst(first: Json, rest: seq<Json>, tokens: map<string, Json>, t: string)
    ensures SomeWrites([first] + rest, tokens, t) <==> Writes(first, tokens, t) || SomeWrites(rest, tokens, t)
  {
    assert first in [first] + rest;
    assert forall v :: v in rest ==> v in [first] + rest;
  }

  lemma {:induction false} ElementsWrite(entries: seq<Entry>, tokens: map<string, Json>, t: string)
    ensures WritesAny(entries, false, tokens, t) <==> SomeWrites(Values(entries), tokens, t)
  {
    if entries != [] {
      ElementsWrite(entries[1..], tokens, t);
      SomeWritesFirst(entries[0].value, Values(entries[1..]), tokens, t);
    }
  }

  lemma FieldShows(e: Entry, tokens: map<string, Json>, t: string)
    ensures FieldEmbeds(e, tokens, t) <==> AnyShows(e.key, ValuesOf(e.value), tokens, t)
  {
    if e.value.Node? && !e.value.keyed {
      ElementsWrite(e.value.entries, tokens, t);
      assert Writes(e.value, tokens, t) <==> SomeWrites(ValuesOf(e.value), tokens, t);
    } else {
      assert ValuesOf(e.value) == [e.value] && e.value in ValuesOf(e.value);
    }
    forall v | v in ValuesOf(e.value) && Writes(v, tokens, t) ensures ValueShows(e.key, v, tokens, t) {
    }
    forall v | v in ValuesOf(e.value) && !v.Null? && Contains(e.key, t) ensures ValueShows(e.key, v, tokens, t) {
    }
  }

  lemma {:induction false} EncodedFieldsShow(fields: seq<Entry>, tokens: map<string, Json>, t: string)
    requires EncodeFields(fields, tokens).Ok?
    ensures FormShows(EncodeFields(fields, tokens).value, t) <==> Embeds(fields, tokens, t)
  {
    if fields != [] {
      var n := |fields| - 1;
      var last := fields[n];
      EncodedFieldsShow(fields[..n], tokens, t);
      EncodedValuesShow(last.key, ValuesOf(last.value), tokens, t);
      FieldShows(last, tokens, t);
      ShowsConcat(EncodeFields(fields[..n], tokens).value, EncodeValues(last.key, ValuesOf(last.value), tokens).value, t);
      assert fields == fields[..n] + [last];
    }
  }

  /**
   * Exactly when token text leaks: the form shows a token's text if and only if
   * the script put it into a longer string, a key, or the name of a written field.
   */
  lemma LeaksIffEmbedded(out: Json, tokens: map<string, Json>, t: string)
    requires Encode(out, tokens).Ok?
    ensures FormShows(Encode(out, tokens).value, t) <==> Embeds(out.entries, tokens, t)
  {
    var fields := SortFields(out.entries);
    EncodedFieldsShow(fields, tokens, t);
    forall e ensures e in fields <==> e in out.entries {
      assert e in fields <==> e in multiset(fields);
      assert e in out.entries <==> e in multiset(out.entries);
    }
  }

  lemma EncodesOne(key: string, v: Json, tokens: map<string, Json>)
    requires !HasLineBreak(key) && !(v.Node? && !v.keyed)
    ensures EncodeFields([Entry(key, v)], tokens) == EncodeValues(key, [v], tokens) == EncodeValue(key, v, tokens)
  {
    var e := Entry(key, v);
    assert [v][..0] == [] && [e][..0] == [] && ValuesOf(v) == [v];
    assert EncodeValues(key, [], tokens) == Ok([]) && EncodeFields([], tokens) == Ok([]);
    var last := EncodeValue(key, v, tokens);
    if last.Ok? {
      assert [] + last.value == last.value;
    }
  }

  // A body that uses one token for its image and sends something else beside it.
  function Beside(token: string, v: Json): Json {
    Node(true, [Entry("image", Str(token)), Entry("prompt", v)])
  }

  lemma SortsTwo(a: Entry, b: Entry)
    requires a.key == "image" && b.key == "prompt"
    ensures SortFields([a, b]) == [a, b]
  {
    assert [a, b][1..] == [b] && [b][1..] == [];
    assert "image"[0] == 'i' && "prompt"[0] == 'p';
    assert SortFields([b]) == InsertField(b, []) == [b];
    assert TextBefore(a.key, b.key);
  }

  // A plain value that can stand beside a token without touching it.
  predicate Harmless(v: Json, tokens: map<string, Json>) {
    !v.Null? && !(v.Node? && !v.keyed) && !Nests(v, tokens) && Clean(v, tokens) && Nodes(v) <= 10 && WithinDepth(v, 1)
  }

  lemma EncodesBeside(token: string, v: Json, file: MediaFile)
    requires Harmless(v, map[token := File(file)])
    ensures Encode(Beside(token, v), map[token := File(file)]) == Ok([PartOf("image", File(file)), Field("prompt", v)])
  {
    var tokens := map[token := File(file)];
    var a, b := Entry("image", Str(token)), Entry("prompt", v);
    SortsTwo(a, b);
    assert [a, b][..1] == [a] && ValuesOf(v) == [v];
    EncodesOne("image", Str(token), tokens);
    EncodesOne("prompt", v, tokens);
    var first, second := [PartOf("image", File(file))], [Field("prompt", v)];
    assert EncodeFields([a, b], tokens) == Ok(first + second);
    assert first + second == [PartOf("image", File(file)), Field("prompt", v)];
  }

  lemma AcceptsBeside(token: string, v: Json, file: MediaFile)
    requires Harmless(v, map[token := File(file)])
    ensures Accepted(Beside(token, v), map[token := File(file)], 0)
  {
    var tokens := map[token := File(file)];
    var a, b := Entry("image", Str(token)), Entry("prompt", v);
    assert [a, b][1..] == [b] && [b][1..] == [];
    assert TOKEN_PREFIX[0] == '_' && "image"[0] == 'i' && "prompt"[0] == 'p';
    assert LeavesAll([b]) == Leaves(v) + LeavesAll([]);
    assert NodesAll([b]) == Nodes(v) + NodesAll([]);
    assert WithinDepthAll([b], 1) == WithinDepth(v, 1);
    assert CleanAll([b], true, tokens) == (KeyAllowed(b.key, tokens) && Clean(v, tokens) && CleanAll([], true, tokens));
    NothingNested(v, tokens);
    TokensCount(Leaves(v), tokens, token);
    assert LeavesAll([a, b]) == Leaves(a.value) + LeavesAll([b]);
    assert Leaves(Beside(token, v)) == [token] + Leaves(v);
    assert Nodes(Beside(token, v)) == 1 + (Nodes(a.value) + Nodes(v));
  }

  lemma EmbedsShows(token: string, v: Json, file: MediaFile)
    requires Harmless(v, map[token := File(file)]) && Writes(v, map[], token)
    ensures Accepted(Beside(token, v), map[token := File(file)], 0)
    ensures var form := Encode(Beside(token, v), map[token := File(file)]);
      form == Ok([PartOf("image", File(file)), Field("prompt", v)]) && FormShows(form.value, token)
  {
    AcceptsBeside(token, v, file);
    EncodesBeside(token, v, file);
    var parts := [PartOf("image", File(file)), Field("prompt", v)];
    assert parts[1] in parts && PartShows(parts[1], token);
  }

  lemma LongerText(token: string)
    requires StartsWith(token, TOKEN_PREFIX)
    ensures "x" + token != token && !StartsWith("x" + token, TOKEN_PREFIX) && Contains("x" + token, token)
  {
    var text := "x" + token;
    assert |text| == |token| + 1 && text[0] == 'x' && TOKEN_PREFIX[0] == '_';
    assert text[1..] == token && Contains(text[1..], token);
  }

  /**
   * A token can still leak as part of a longer text: a script may embed it in a
   * plain field, and every check passes.
   */
  lemma TokenTextCanLeak(file: MediaFile, id: string)
    ensures var token := TOKEN_PREFIX + id; var tokens := map[token := File(file)];
      var out := Beside(token, Str("x" + token));
      && Accepted(out, tokens, 0)
      && Encode(out, tokens) == Ok([PartOf("image", File(file)), Field("prompt", Str("x" + token))])
      && FormShows(Encode(out, tokens).value, token)
  {
    var token := TOKEN_PREFIX + id;
    LongerText(token);
    EmbedsShows(token, Str("x" + token), file);
  }

  /** It can leak through a key as well, with no string of the output holding it. */
  lemma TokenKeyCanLeak(file: MediaFile, id: string)
    ensures var token := TOKEN_PREFIX + id; var tokens := map[token := File(file)];
      var out := Beside(token, Node(true, [Entry("x" + token, Str("1"))]));
      && Accepted(out, tokens, 0) && Encode(out, tokens).Ok? && FormShows(Encode(out, tokens).value, token)
      && forall s :: s in Leaves(out) && s !in tokens ==> !Contains(s, token)
  {
    var token := TOKEN_PREFIX + id;
    var tokens := map[token := File(file)];
    LongerText(token);
    var v := Node(true, [Entry("x" + token, Str("1"))]);
    OneEntry("x" + token, "1", tokens, token);
    assert "1"[0] == '1' && TOKEN_PREFIX[0] == '_' && |token| >= 2 && "1" != token && !StartsWith("1", token);
    assert "1"[1..] == "" && !StartsWith("", token) && !Contains("", token) && !Contains("1", token);
    EmbedsShows(token, v, file);
    KeyedLeaves(token, v, "1");
  }

  lemma OneEntry(key: string, text: string, tokens: map<string, Json>, t: string)
    ensures var v := Node(true, [Entry(key, Str(text))]);
      && Leaves(v) == [text] && Nodes(v) == 2 && WithinDepth(v, 1)
      && (Nests(v, tokens) <==> text in tokens)
      && (Clean(v, tokens) <==> KeyAllowed(key, tokens) && Clean(Str(text), tokens))
      && (Writes(v, map[], t) <==> Contains(key, t) || Contains(text, t))
  {
    var e := [Entry(key, Str(text))];
    assert e[1..] == [];
    assert NodesAll(e) == Nodes(Str(text)) + NodesAll([]);
    assert WithinDepthAll(e, 2) == (WithinDepth(Str(text), 2) && WithinDepthAll([], 2));
    assert LeavesAll(e) == Leaves(Str(text)) + LeavesAll([]);
    assert NestsAny(e, tokens) == (Nests(Str(text), tokens) || NestsAny([], tokens));
    assert WritesAny(e, true, map[], t) == (Contains(key, t) || Writes(Str(text), map[], t) || WritesAny([], true, map[], t));
    assert CleanAll(e, true, tokens) == (KeyAllowed(key, tokens) && Clean(Str(text), tokens) && CleanAll([], true, tokens));
  }

  lemma KeyedLeaves(token: string, v: Json, leaf: string)
    requires Leaves(v) == [leaf]
    ensures Leaves(Beside(token, v)) == [token, leaf]
  {
    var a, b := Entry("image", Str(token)), Entry("prompt", v);
    assert [a, b][1..] == [b] && [b][1..] == [];
    assert LeavesAll([b]) == Leaves(v) + LeavesAll([]);
    assert LeavesAll([a, b]) == Leaves(a.value) + LeavesAll([b]);
  }
}
