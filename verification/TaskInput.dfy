/**
 * Normalising the input of an image task: fields are merged into one key,
 * identifiers and the response format are filled in. The result is the identity
 * a retry is compared by.
 */
module TaskInput {
  import opened Prelude

  // A JSON value; `Other` is any value that is neither text, truth value,
  // integer nor null.
  datatype Raw = NullValue | Text(s: string) | Truth(b: bool) | Number(n: int) | Other(json: string)

  // Fields a request may spell in camel case or in snake case, in the order they
  // are merged.
  datatype Field =
    | GenerationId | TaskId | ResponseFormat | CallbackUrl | RepairPrompt | NegativePrompt | ApiPrompt | BackendGroupId
    | OutputFormat | HdRepair | BlockRepair | TransparentMatte | PromptOptimization | ModerationPromptRepair
    | OutputCompression

  // A key of a request body: one of the two spellings of a field, or another name.
  datatype Key = Camel(field: Field) | Snake(field: Field) | Unpaired(name: string)

  type Body = map<Key, Raw>

  datatype InputError = BadOperation | BadValue(key: Key) | ConflictingAliases(field: Field) | BadGenerationId | BadTaskId
    | BadFormat | BadCallback

  datatype Kind = TextKind | TruthKind | NumberKind

  const OPERATION := Unpaired("operation")

  const TEXTS := [
    GenerationId, TaskId, ResponseFormat, CallbackUrl, RepairPrompt, NegativePrompt, ApiPrompt, BackendGroupId, OutputFormat]
  const TRUTHS := [HdRepair, BlockRepair, TransparentMatte, PromptOptimization, ModerationPromptRepair]
  const NUMBERS := [OutputCompression]

  // ---------------------------------------------------------------- reading

  predicate AllDigits(s: string) {
    forall i | 0 <= i < |s| :: '0' <= s[i] <= '9'
  }

  function DigitsValue(s: string): nat
    requires AllDigits(s)
  {
    if s == "" then 0 else 10 * DigitsValue(s[..|s| - 1]) + (s[|s| - 1] as int - '0' as int)
  }

  const MAX_INT := 9223372036854775807

  // A machine integer of 64 bits.
  predicate FitsInt(n: int) {
    -MAX_INT - 1 <= n <= MAX_INT
  }

  /** A decimal integer that fits 64 bits. */
  function ParseInteger(s: string): (r: Option<int>)
    ensures r.Some? ==> FitsInt(r.value)
  {
    var signed := s != "" && (s[0] == '-' || s[0] == '+');
    var digits := if signed then s[1..] else s;
    if digits == "" || !AllDigits(digits) then None
    else
      var n: int := DigitsValue(digits);
      if signed && s[0] == '-' then (if n <= MAX_INT + 1 then Some(-n) else None)
      else if n <= MAX_INT then Some(n)
      else None
  }

  /** The value of a key as its kind reads it; null reads as the empty value. */
  function Read(kind: Kind, raw: Raw): Option<Raw> {
    match kind
    case TextKind => if raw.NullValue? then Some(Text("")) else if raw.Text? then Some(Text(TrimSpace(raw.s))) else None
    case TruthKind =>
      if raw.NullValue? then Some(Truth(false))
      else if raw.Truth? then Some(raw)
      else if raw.Text? && (raw.s == "true" || raw.s == "false") then Some(Truth(raw.s == "true"))
      else None
    case NumberKind =>
      if raw.NullValue? then Some(Number(0))
      else if raw.Number? then (if FitsInt(raw.n) then Some(raw) else None)
      else if raw.Text? then
        var n := ParseInteger(TrimSpace(raw.s));
        if n.Some? then Some(Number(n.value)) else None
      else None
  }

  /** Takes one spelling out of the body and compares it with what was read before. */
  function TakeKey(kind: Kind, body: Body, key: Key, before: Option<Raw>): Result<(Body, Option<Raw>), InputError>
    requires !key.Unpaired?
  {
    if key !in body then Ok((body, before))
    else
      var next := Read(kind, body[key]);
      if next.None? then Err(BadValue(key))
      else if before.Some? && before.value != Text("") && before != next then Err(ConflictingAliases(key.field))
      else Ok((body - {key}, next))
  }

  /** Merges the two spellings of one key. */
  function Merge(kind: Kind, body: Body, field: Field): Result<Body, InputError> {
    var first :- TakeKey(kind, body, Camel(field), None);
    var second :- TakeKey(kind, first.0, Snake(field), first.1);
    if second.1.None? || second.1.value == Text("") then Ok(second.0)
    else Ok(second.0[Camel(field) := second.1.value])
  }

  function MergeAll(kind: Kind, body: Body, fields: seq<Field>): Result<Body, InputError> {
    if fields == [] then Ok(body)
    else
      var earlier :- MergeAll(kind, body, fields[..|fields| - 1]);
      Merge(kind, earlier, fields[|fields| - 1])
  }

  function MergeEverything(body: Body): Result<Body, InputError> {
    var texts :- MergeAll(TextKind, body, TEXTS);
    var truths :- MergeAll(TruthKind, texts, TRUTHS);
    MergeAll(NumberKind, truths, NUMBERS)
  }

  function TextAt(body: Body, field: Field): string {
    if Camel(field) in body && body[Camel(field)].Text? then TrimSpace(body[Camel(field)].s) else ""
  }

  predicate OperationAllowed(body: Body, operation: string) {
    operation in {"generate", "edit", "mask"} && (OPERATION in body ==> body[OPERATION] == Text(operation))
  }

  /** Fills in and checks the identifiers, the format and the callback. */
  function FillIn(body: Body, newId: string, callbacks: string -> bool): Result<Body, InputError> {
    var generationId := if TextAt(body, GenerationId) == "" then newId else TextAt(body, GenerationId);
    var taskId := if TextAt(body, TaskId) == "" then "task_" + generationId else TextAt(body, TaskId);
    var format := if TextAt(body, ResponseFormat) == "" then "url" else TextAt(body, ResponseFormat);
    var callback := TextAt(body, CallbackUrl);
    if |generationId| > 128 then Err(BadGenerationId)
    else if !("task_" <= taskId) || |taskId| > 128 then Err(BadTaskId)
    else if format != "url" && format != "b64_json" then Err(BadFormat)
    else if callback != "" && (!callbacks(callback) || |callback| > 2048) then Err(BadCallback)
    else Ok(body[Camel(GenerationId) := Text(generationId)][Camel(TaskId) := Text(taskId)][Camel(ResponseFormat) := Text(format)])
  }

  /** The normal form of a request body; `newId` is used when no generation id was supplied. */
  function Normalize(body: Body, operation: string, newId: string, callbacks: string -> bool): Result<Body, InputError> {
    if !OperationAllowed(body, operation) then Err(BadOperation)
    else
      var merged :- MergeEverything(body[OPERATION := Text(operation)]);
      FillIn(merged, newId, callbacks)
  }

  // ------------------------------------------------------------------ loops

  lemma {:induction false} MergeStops(kind: Kind, body: Body, fields: seq<Field>, k: nat, n: nat)
    requires k <= n <= |fields| && MergeAll(kind, body, fields[..k]).Err?
    ensures MergeAll(kind, body, fields[..n]) == MergeAll(kind, body, fields[..k])
  {
    if k < n {
      MergeStops(kind, body, fields, k, n - 1);
      assert fields[..n][..n - 1] == fields[..n - 1];
    }
  }

  /** Merges one pair of spellings, deleting both keys and writing the main one back. */
  method MergePair(kind: Kind, original: Body, field: Field) returns (r: Result<Body, InputError>)
    ensures r == Merge(kind, original, field)
  {
    var body := original;
    var selected: Option<Raw> := None;
    var keys := [Camel(field), Snake(field)];
    var k := 0;
    while k < 2
      invariant 0 <= k <= 2
      invariant k == 0 ==> body == original && selected == None
      invariant k == 1 ==> TakeKey(kind, original, Camel(field), None) == Ok((body, selected))
      invariant k == 2 ==> TakeKey(kind, original, Camel(field), None).Ok?
      invariant k == 2 ==> var first := TakeKey(kind, original, Camel(field), None).value;
                           TakeKey(kind, first.0, Snake(field), first.1) == Ok((body, selected))
    {
      var key := keys[k];
      if key in body {
        var next := Read(kind, body[key]);
        if next.None? {
          return Err(BadValue(key));
        }
        if selected.Some? && selected.value != Text("") && selected != next {
          return Err(ConflictingAliases(field));
        }
        selected := next;
        body := body - {key};
      }
      k := k + 1;
    }
    if selected.Some? && selected.value != Text("") {
      body := body[Camel(field) := selected.value];
    }
    return Ok(body);
  }

  /** Merges every pair of one kind. */
  method MergeAliases(kind: Kind, original: Body, fields: seq<Field>) returns (r: Result<Body, InputError>)
    ensures r == MergeAll(kind, original, fields)
  {
    var body := original;
    var k := 0;
    while k < |fields|
      invariant 0 <= k <= |fields| && MergeAll(kind, original, fields[..k]) == Ok(body)
    {
      assert fields[..k + 1][..k] == fields[..k];
      var merged := MergePair(kind, body, fields[k]);
      if merged.Err? {
        MergeStops(kind, original, fields, k + 1, |fields|);
        assert fields[..|fields|] == fields;
        return merged;
      }
      body := merged.value;
      k := k + 1;
    }
    assert fields[..k] == fields;
    return Ok(body);
  }

  method NormalizeImageTaskInput(original: Body, operation: string, newId: string, callbacks: string -> bool)
    returns (r: Result<Body, InputError>)
    ensures r == Normalize(original, operation, newId, callbacks)
  {
    if !OperationAllowed(original, operation) {
      return Err(BadOperation);
    }
    var body := original[OPERATION := Text(operation)];
    body :- MergeAliases(TextKind, body, TEXTS);
    body :- MergeAliases(TruthKind, body, TRUTHS);
    body :- MergeAliases(NumberKind, body, NUMBERS);
    r := FillIn(body, newId, callbacks);
  }

  // ------------------------------------------------------------ normal form

  // One pair is merged: only the main spelling is left, holding a read value.
  predicate Merged(kind: Kind, body: Body, field: Field) {
    Snake(field) !in body
    && (Camel(field) in body ==> Read(kind, body[Camel(field)]) == Some(body[Camel(field)]) && body[Camel(field)] != Text(""))
  }

  ghost predicate AllMerged(kind: Kind, body: Body, fields: seq<Field>) {
    forall i :: 0 <= i < |fields| ==> Merged(kind, body, fields[i])
  }

  lemma ReadTwice(kind: Kind, raw: Raw)
    requires Read(kind, raw).Some?
    ensures Read(kind, Read(kind, raw).value) == Read(kind, raw)
  {
    if kind.TextKind? && raw.Text? {
      TrimSpaceIdempotent(raw.s);
    }
  }

  /** Merging leaves one normal spelling, or none, and touches no other key. */
  lemma MergeNormal(kind: Kind, body: Body, field: Field)
    requires Merge(kind, body, field).Ok?
    ensures Merged(kind, Merge(kind, body, field).value, field)
    ensures var merged := Merge(kind, body, field).value;
      forall key :: key != Camel(field) && key != Snake(field) ==>
        (key in merged <==> key in body) && (key in body ==> merged[key] == body[key])
  {
    if Camel(field) in body { ReadTwice(kind, body[Camel(field)]); }
    if Snake(field) in body { ReadTwice(kind, body[Snake(field)]); }
  }

  /** Merging a merged pair changes nothing. */
  lemma MergeIdle(kind: Kind, body: Body, field: Field)
    requires Merged(kind, body, field)
    ensures Merge(kind, body, field) == Ok(body)
  {
    if Camel(field) in body {
      assert (body - {Camel(field)})[Camel(field) := body[Camel(field)]] == body;
    }
  }

  /**
   * When merging succeeds: both spellings read, and they agree unless the main
   * one is blank text. A blank alternative conflicts with a non-blank main one.
   */
  lemma MergeSucceedsIff(kind: Kind, body: Body, field: Field)
    ensures Merge(kind, body, field).Ok? <==>
            && (Camel(field) in body ==> Read(kind, body[Camel(field)]).Some?)
            && (Snake(field) in body ==> Read(kind, body[Snake(field)]).Some?)
            && (Camel(field) in body && Snake(field) in body ==>
                  || Read(kind, body[Camel(field)]) == Read(kind, body[Snake(field)])
                  || Read(kind, body[Camel(field)]) == Some(Text("")))
  {
  }

  /** Either spelling alone means the same. */
  lemma SpellingIrrelevant(kind: Kind, body: Body, field: Field, raw: Raw)
    requires Camel(field) !in body && Snake(field) !in body && Read(kind, raw).Some?
    ensures Merge(kind, body[Camel(field) := raw], field) == Merge(kind, body[Snake(field) := raw], field)
  {
    assert body[Camel(field) := raw] - {Camel(field)} == body;
    assert body[Snake(field) := raw] - {Snake(field)} == body;
  }

  ghost predicate Apart(fields: seq<Field>) {
    forall i, j :: 0 <= i < j < |fields| ==> fields[i] != fields[j]
  }

  predicate SameAt(a: Body, b: Body, key: Key) {
    (key in a <==> key in b) && (key in a ==> a[key] == b[key])
  }

  // Both spellings of a field are as before.
  predicate SameField(a: Body, b: Body, field: Field) {
    SameAt(a, b, Camel(field)) && SameAt(a, b, Snake(field))
  }

  ghost predicate SameElsewhere(a: Body, b: Body, fields: seq<Field>) {
    && (forall field :: field !in fields ==> SameField(a, b, field))
    && (forall name :: SameAt(a, b, Unpaired(name)))
  }

  lemma {:induction false} MergeAllNormal(kind: Kind, body: Body, fields: seq<Field>)
    requires Apart(fields) && MergeAll(kind, body, fields).Ok?
    ensures AllMerged(kind, MergeAll(kind, body, fields).value, fields)
    ensures SameElsewhere(MergeAll(kind, body, fields).value, body, fields)
  {
    if fields != [] {
      var n := |fields| - 1;
      var earlier := MergeAll(kind, body, fields[..n]).value;
      MergeAllNormal(kind, body, fields[..n]);
      MergeNormal(kind, earlier, fields[n]);
      var merged := MergeAll(kind, body, fields).value;
      forall i | 0 <= i < n ensures Merged(kind, merged, fields[i]) {
        assert Merged(kind, earlier, fields[..n][i]);
        assert SameField(merged, earlier, fields[i]);
      }
      assert fields == fields[..n] + [fields[n]];
      forall field | field !in fields ensures SameField(merged, body, field) {
        assert SameField(earlier, body, field) && SameField(merged, earlier, field);
      }
      forall name ensures SameAt(merged, body, Unpaired(name)) {
        assert SameAt(earlier, body, Unpaired(name)) && SameAt(merged, earlier, Unpaired(name));
      }
    }
  }

  lemma {:induction false} MergeAllIdle(kind: Kind, body: Body, fields: seq<Field>)
    requires Apart(fields) && AllMerged(kind, body, fields)
    ensures MergeAll(kind, body, fields) == Ok(body)
  {
    if fields != [] {
      MergeAllIdle(kind, body, fields[..|fields| - 1]);
      MergeIdle(kind, body, fields[|fields| - 1]);
    }
  }

  // A body whose spellings are all merged.
  ghost predicate Normal(body: Body) {
    AllMerged(TextKind, body, TEXTS) && AllMerged(TruthKind, body, TRUTHS) && AllMerged(NumberKind, body, NUMBERS)
  }

  lemma ListsApart()
    ensures Apart(TEXTS) && Apart(TRUTHS) && Apart(NUMBERS)
    ensures forall field :: field in TEXTS ==> field !in TRUTHS && field !in NUMBERS
    ensures forall field :: field in TRUTHS ==> field !in NUMBERS
  {
  }

  lemma StaysMerged(kind: Kind, before: Body, after: Body, fields: seq<Field>, others: seq<Field>)
    requires AllMerged(kind, before, fields) && SameElsewhere(after, before, others)
    requires forall field :: field in fields ==> field !in others
    ensures AllMerged(kind, after, fields)
  {
    forall i | 0 <= i < |fields| ensures Merged(kind, after, fields[i]) {
      assert Merged(kind, before, fields[i]) && fields[i] in fields && SameField(after, before, fields[i]);
    }
  }

  lemma MergeEverythingNormal(body: Body)
    requires MergeEverything(body).Ok?
    ensures Normal(MergeEverything(body).value) && SameAt(MergeEverything(body).value, body, OPERATION)
  {
    var texts := MergeAll(TextKind, body, TEXTS).value;
    var truths := MergeAll(TruthKind, texts, TRUTHS).value;
    var merged := MergeAll(NumberKind, truths, NUMBERS).value;
    ListsApart();
    MergeAllNormal(TextKind, body, TEXTS);
    MergeAllNormal(TruthKind, texts, TRUTHS);
    MergeAllNormal(NumberKind, truths, NUMBERS);
    StaysMerged(TextKind, texts, truths, TEXTS, TRUTHS);
    StaysMerged(TextKind, truths, merged, TEXTS, NUMBERS);
    StaysMerged(TruthKind, truths, merged, TRUTHS, NUMBERS);
    assert SameAt(texts, body, OPERATION) && SameAt(truths, texts, OPERATION) && SameAt(merged, truths, OPERATION);
  }

  lemma MergeEverythingIdle(body: Body)
    requires Normal(body)
    ensures MergeEverything(body) == Ok(body)
  {
    MergeAllIdle(TextKind, body, TEXTS);
    MergeAllIdle(TruthKind, body, TRUTHS);
    MergeAllIdle(NumberKind, body, NUMBERS);
    IdleInTurn(body);
  }

  lemma IdleInTurn(body: Body)
    requires MergeAll(TextKind, body, TEXTS) == MergeAll(TruthKind, body, TRUTHS) == MergeAll(NumberKind, body, NUMBERS) == Ok(body)
    ensures MergeEverything(body) == Ok(body)
  {
  }

  // ------------------------------------------------------------- idempotence

  predicate Trimmed(s: string) {
    TrimSpace(s) == s
  }

  lemma PrefixTrimmed(id: string)
    requires Trimmed(id) && id != ""
    ensures Trimmed("task_" + id)
  {
    var s := "task_" + id;
    assert s[0] == 't' && !IsSpace(s[0]) && TrimLeft(s) == s;
    EndsTrimmed(id);
    assert s[|s| - 1] == id[|id| - 1];
  }

  lemma EndsTrimmed(id: string)
    requires Trimmed(id) && id != ""
    ensures !IsSpace(id[|id| - 1])
  {
    assert TrimRight(TrimLeft(id)) == id;
  }

  lemma TextAtTrimmed(body: Body, field: Field)
    ensures Trimmed(TextAt(body, field))
  {
    if Camel(field) in body && body[Camel(field)].Text? {
      TrimSpaceIdempotent(body[Camel(field)].s);
    }
  }

  lemma FixedFormats()
    ensures Trimmed("url") && Trimmed("b64_json")
  {
    assert TrimLeft("url") == "url" && TrimLeft("b64_json") == "b64_json";
    assert TrimRight("url") == "url" && TrimRight("b64_json") == "b64_json";
  }

  // The identifiers and the format are in place and hold trimmed text.
  predicate Filled(body: Body) {
    forall field | field in {GenerationId, TaskId, ResponseFormat} ::
      Camel(field) in body && body[Camel(field)].Text? && Trimmed(body[Camel(field)].s) && body[Camel(field)].s != ""
  }

  lemma FillInFilled(body: Body, newId: string, callbacks: string -> bool)
    requires FillIn(body, newId, callbacks).Ok? && newId != "" && Trimmed(newId)
    ensures Filled(FillIn(body, newId, callbacks).value)
  {
    var filled := FillIn(body, newId, callbacks).value;
    var generationId := if TextAt(body, GenerationId) == "" then newId else TextAt(body, GenerationId);
    TextAtTrimmed(body, GenerationId);
    TextAtTrimmed(body, TaskId);
    TextAtTrimmed(body, ResponseFormat);
    PrefixTrimmed(generationId);
    FixedFormats();
    var taskId := if TextAt(body, TaskId) == "" then "task_" + generationId else TextAt(body, TaskId);
    var format := if TextAt(body, ResponseFormat) == "" then "url" else TextAt(body, ResponseFormat);
    assert filled[Camel(GenerationId)] == Text(generationId) && Trimmed(generationId);
    assert filled[Camel(TaskId)] == Text(taskId) && Trimmed(taskId);
    assert filled[Camel(ResponseFormat)] == Text(format) && Trimmed(format);
  }

  const FILLED := {Camel(GenerationId), Camel(TaskId), Camel(ResponseFormat)}

  lemma FillInElsewhere(body: Body, newId: string, callbacks: string -> bool, key: Key)
    requires FillIn(body, newId, callbacks).Ok? && key !in FILLED
    ensures SameAt(FillIn(body, newId, callbacks).value, body, key)
  {
  }

  lemma FilledStaysMerged(body: Body, filled: Body, kind: Kind, fields: seq<Field>)
    requires AllMerged(kind, body, fields) && Filled(filled)
    requires kind.TextKind? || forall i :: 0 <= i < |fields| ==> Camel(fields[i]) !in FILLED
    requires forall key :: key !in FILLED ==> SameAt(filled, body, key)
    ensures AllMerged(kind, filled, fields)
  {
    forall i | 0 <= i < |fields| ensures Merged(kind, filled, fields[i]) {
      assert Merged(kind, body, fields[i]);
      assert SameAt(filled, body, Snake(fields[i]));
      if Camel(fields[i]) !in FILLED {
        assert SameAt(filled, body, Camel(fields[i]));
      }
    }
  }

  lemma FillInFills(body: Body, newId: string, callbacks: string -> bool)
    requires Normal(body) && FillIn(body, newId, callbacks).Ok? && newId != "" && Trimmed(newId)
    ensures var filled := FillIn(body, newId, callbacks).value;
      && Filled(filled) && Normal(filled) && SameAt(filled, body, OPERATION)
      && TextAt(filled, CallbackUrl) == TextAt(body, CallbackUrl)
  {
    var filled := FillIn(body, newId, callbacks).value;
    FillInFilled(body, newId, callbacks);
    FillInNormal(body, newId, callbacks);
    FillInElsewhere(body, newId, callbacks, Camel(CallbackUrl));
    FillInElsewhere(body, newId, callbacks, OPERATION);
  }

  lemma FillInNormal(body: Body, newId: string, callbacks: string -> bool)
    requires Normal(body) && FillIn(body, newId, callbacks).Ok? && Filled(FillIn(body, newId, callbacks).value)
    ensures Normal(FillIn(body, newId, callbacks).value)
  {
    var filled := FillIn(body, newId, callbacks).value;
    forall key | key !in FILLED ensures SameAt(filled, body, key) {
      FillInElsewhere(body, newId, callbacks, key);
    }
    FilledStaysMerged(body, filled, TextKind, TEXTS);
    FilledStaysMerged(body, filled, TruthKind, TRUTHS);
    FilledStaysMerged(body, filled, NumberKind, NUMBERS);
  }

  lemma FillInIdle(body: Body, newId: string, other: string, callbacks: string -> bool)
    requires FillIn(body, newId, callbacks).Ok?
    requires Filled(FillIn(body, newId, callbacks).value)
    requires TextAt(FillIn(body, newId, callbacks).value, CallbackUrl) == TextAt(body, CallbackUrl)
    ensures var filled := FillIn(body, newId, callbacks).value; FillIn(filled, other, callbacks) == Ok(filled)
  {
    var filled := FillIn(body, newId, callbacks).value;
    var again := FillIn(filled, other, callbacks);
    forall field | field in {GenerationId, TaskId, ResponseFormat}
      ensures TextAt(filled, field) == filled[Camel(field)].s && TextAt(filled, field) != ""
    {
    }
    assert again.Ok?;
    assert again.value == filled;
  }

  /**
   * Normalisation is idempotent: a normal form is its own normal form, whatever
   * identifier would be drawn the second time.
   */
  lemma NormalizeTwice(body: Body, operation: string, newId: string, other: string, callbacks: string -> bool)
    requires newId != "" && Trimmed(newId) && Normalize(body, operation, newId, callbacks).Ok?
    ensures var normal := Normalize(body, operation, newId, callbacks).value;
      Normalize(normal, operation, other, callbacks) == Ok(normal)
  {
    var merged := MergeEverything(body[OPERATION := Text(operation)]).value;
    var normal := Normalize(body, operation, newId, callbacks).value;
    MergeEverythingNormal(body[OPERATION := Text(operation)]);
    FillInFills(merged, newId, callbacks);
    FillInIdle(merged, newId, other, callbacks);
    assert normal[OPERATION := Text(operation)] == normal;
    MergeEverythingIdle(normal);
  }

  // Whether the caller named the generation, under either spelling.
  predicate NamesGeneration(body: Body, operation: string) {
    var merged := MergeEverything(body[OPERATION := Text(operation)]);
    merged.Ok? && TextAt(merged.value, GenerationId) != ""
  }

  /**
   * Two tries of one accepted request with different drawn identifiers have the
   * same normal form exactly when the caller named the generation.
   */
  lemma RetryStableIff(body: Body, operation: string, first: string, second: string, callbacks: string -> bool)
    requires first != second && Normalize(body, operation, first, callbacks).Ok? && Normalize(body, operation, second, callbacks).Ok?
    ensures Normalize(body, operation, first, callbacks) == Normalize(body, operation, second, callbacks)
            <==> NamesGeneration(body, operation)
  {
    if !NamesGeneration(body, operation) {
      assert Normalize(body, operation, first, callbacks).value[Camel(GenerationId)] == Text(first);
      assert Normalize(body, operation, second, callbacks).value[Camel(GenerationId)] == Text(second);
    }
  }

  /** An instance of a refused merge: text under the main spelling, blank text under the other. */
  lemma BlankAlternativeConflicts()
    ensures var body := map[Camel(TaskId) := Text("a"), Snake(TaskId) := Text("")];
      Merge(TextKind, body, TaskId) == Err(ConflictingAliases(TaskId))
    ensures var body := map[Camel(TaskId) := Text(""), Snake(TaskId) := Text("a")]; Merge(TextKind, body, TaskId).Ok?
  {
    assert TrimSpace("a") == "a";
    assert TrimSpace("") == "";
  }

  /** An instance of an unstable retry: an empty request under two drawn identifiers. */
  lemma UnnamedRetryDiffers(callbacks: string -> bool)
    ensures Normalize(map[], "generate", "a", callbacks) != Normalize(map[], "generate", "b", callbacks)
  {
    var body: Body := map[OPERATION := Text("generate")];
    MergeEverythingIdle(body);
    var a, b := Normalize(map[], "generate", "a", callbacks), Normalize(map[], "generate", "b", callbacks);
    assert "task_a"[..5] == "task_" && "task_b"[..5] == "task_";
    assert a.Ok? && a.value[Camel(GenerationId)] == Text("a");
    assert b.Ok? && b.value[Camel(GenerationId)] == Text("b");
  }
}
