/**
 * Reading a provider's reply: whether it holds output, which task it is about,
 * and which output items a finished reply delivers.
 */
module ProviderResults {
  import opened Prelude
  import opened MediaTokens

  const DIRECT := ["url", "image_url", "imageUrl", "b64_json", "base64", "imageBase64"]
  const NESTED := ["data", "images", "outputs", "output", "result"]

  /** The text of the first listed key that holds some. */
  function ExtractString(entries: seq<Entry>, keys: seq<string>): string {
    if keys == [] then ""
    else
      var text := TextAt(entries, keys[0]);
      if text != "" then text else ExtractString(entries, keys[1..])
  }

  function TextAt(entries: seq<Entry>, key: string): string {
    if entries == [] then ""
    else if entries[0].key == key then (if entries[0].value.Str? then TrimSpace(entries[0].value.value) else "")
    else TextAt(entries[1..], key)
  }

  /** Whether a reply holds an image anywhere it may be. */
  predicate HasOutput(v: Json) {
    v.Node? && if v.keyed then ExtractString(v.entries, DIRECT) != "" || NestedOutput(v.entries) else AnyOutput(v.entries)
  }

  predicate NestedOutput(entries: seq<Entry>) {
    entries != [] && ((entries[0].key in NESTED && HasOutput(entries[0].value)) || NestedOutput(entries[1..]))
  }

  predicate AnyOutput(entries: seq<Entry>) {
    entries != [] && (HasOutput(entries[0].value) || AnyOutput(entries[1..]))
  }

  // ------------------------------------------------------------------ items

  /** The objects with output among the elements of a list. */
  function Producing(entries: seq<Entry>): seq<Json> {
    if entries == [] then []
    else
      var v := entries[0].value;
      (if v.Node? && v.keyed && HasOutput(v) then [v] else []) + Producing(entries[1..])
  }

  /** The output items of a reply object: those of its first nested value that has some, else itself. */
  function OutputItems(v: Json): seq<Json>
    requires v.Node? && v.keyed
    decreases v, 0
  {
    var nested := FirstItems(v.entries, NESTED);
    if nested != [] then nested else if HasOutput(v) then [v] else []
  }

  function FirstItems(entries: seq<Entry>, keys: seq<string>): seq<Json>
    decreases entries, 1, |keys|
  {
    if keys == [] then []
    else
      var items := ItemsUnder(entries, keys[0]);
      if items != [] then items else FirstItems(entries, keys[1..])
  }

  function ItemsUnder(entries: seq<Entry>, key: string): seq<Json>
    decreases entries, 0
  {
    if entries == [] then []
    else if entries[0].key == key then ItemsOf(entries[0].value)
    else ItemsUnder(entries[1..], key)
  }

  function ItemsOf(v: Json): seq<Json>
    decreases v, 1
  {
    if !v.Node? then [] else if v.keyed then OutputItems(v) else Producing(v.entries)
  }

  // An item is an object with output.
  ghost predicate Items(items: seq<Json>) {
    forall item :: item in items ==> item.Node? && item.keyed && HasOutput(item)
  }

  lemma {:induction false} ProducingItems(entries: seq<Entry>)
    ensures Items(Producing(entries))
    ensures Producing(entries) != [] ==> AnyOutput(entries)
  {
    if entries != [] {
      ProducingItems(entries[1..]);
    }
  }

  lemma {:induction false} ItemsHaveOutput(v: Json)
    requires v.Node? && v.keyed
    ensures Items(OutputItems(v))
    ensures OutputItems(v) != [] ==> HasOutput(v)
    decreases v, 0
  {
    FirstItemsHaveOutput(v.entries, NESTED);
  }

  lemma {:induction false} FirstItemsHaveOutput(entries: seq<Entry>, keys: seq<string>)
    requires forall key :: key in keys ==> key in NESTED
    ensures Items(FirstItems(entries, keys))
    ensures FirstItems(entries, keys) != [] ==> NestedOutput(entries)
    decreases entries, 1, |keys|
  {
    if keys != [] {
      ItemsUnderHaveOutput(entries, keys[0]);
      FirstItemsHaveOutput(entries, keys[1..]);
    }
  }

  lemma {:induction false} ItemsOfHaveOutput(v: Json)
    ensures Items(ItemsOf(v))
    ensures ItemsOf(v) != [] ==> HasOutput(v)
    decreases v, 1
  {
    if v.Node? && v.keyed {
      ItemsHaveOutput(v);
    } else if v.Node? {
      ProducingItems(v.entries);
    }
  }

  lemma {:induction false} ItemsUnderHaveOutput(entries: seq<Entry>, key: string)
    requires key in NESTED
    ensures Items(ItemsUnder(entries, key))
    ensures ItemsUnder(entries, key) != [] ==> NestedOutput(entries)
    decreases entries, 0
  {
    if entries != [] {
      var v := entries[0].value;
      if entries[0].key != key {
        ItemsUnderHaveOutput(entries[1..], key);
      } else {
        assert ItemsUnder(entries, key) == ItemsOf(v);
        ItemsOfHaveOutput(v);
      }
    }
  }

  /**
   * A reply counts as finished exactly when it delivers at least one item, and
   * every delivered item is an object with output.
   */
  lemma FinishedIffItems(v: Json)
    requires v.Node? && v.keyed
    ensures HasOutput(v) <==> OutputItems(v) != []
    ensures Items(OutputItems(v))
  {
    ItemsHaveOutput(v);
  }

  // ------------------------------------------------------------- inspection

  datatype Inspection = Finished | Accepted(id: string) | Terminal | Invalid | OtherTask | NoTask

  const FAILURES := {"failed", "error", "cancelled", "canceled", "rejected"}
  const WAITING := {"", "pending", "queued", "created", "submitting", "processing", "running", "in_progress"}

  function ToLower(s: string): string {
    if s == "" then "" else [Lower(s[0])] + ToLower(s[1..])
  }

  /** The object a reply is about: its `data` object, or itself. */
  function RecordOf(entries: seq<Entry>): seq<Entry> {
    RecordIn(entries, entries)
  }

  function RecordIn(entries: seq<Entry>, whole: seq<Entry>): seq<Entry> {
    if entries == [] then whole
    else if entries[0].key == "data" then
      (if entries[0].value.Node? && entries[0].value.keyed then entries[0].value.entries else whole)
    else RecordIn(entries[1..], whole)
  }

  /** What a reply object says about the task that is expected, if one is. */
  function Inspect(reply: seq<Entry>, expected: string): (seen: Inspection)
    ensures seen.Accepted? ==> seen.id != "" && (expected != "" ==> seen.id == expected)
  {
    var record := RecordOf(reply);
    var status := ToLower(ExtractString(record, ["status", "state"]));
    if status in FAILURES then Terminal
    else if HasOutput(Node(true, reply)) then Finished
    else if status !in WAITING then Invalid
    else AcceptedId(ExtractString(record, ["taskId", "task_id", "id", "generation_id"]), expected)
  }

  function AcceptedId(id: string, expected: string): Inspection {
    if expected != "" && id != "" && id != expected then OtherTask
    else if id == "" && expected == "" then NoTask
    else Accepted(if id == "" then expected else id)
  }

  /** The task ids known after each reply, as long as every reply is pending. */
  ghost predicate Tracks(replies: seq<seq<Entry>>, ids: seq<string>) {
    && |ids| == |replies| + 1 && ids[0] == ""
    && forall k :: 0 <= k < |replies| ==> Inspect(replies[k], ids[k]) == Accepted(ids[k + 1])
  }

  /** However many replies follow, the id of the first accepted one never changes, and it is never blank. */
  lemma {:induction false} IdentityKept(replies: seq<seq<Entry>>, ids: seq<string>, n: nat)
    requires Tracks(replies, ids) && 1 <= n < |ids|
    ensures ids[n] == ids[1] && ids[1] != ""
  {
    var seen := Inspect(replies[n - 1], ids[n - 1]);
    assert seen == Accepted(ids[n]);
    if n > 1 {
      IdentityKept(replies, ids, n - 1);
    }
  }

  /** A finished reply always has items for completion, so completion never fails for lack of output. */
  lemma FinishedDelivers(reply: seq<Entry>, expected: string)
    requires Inspect(reply, expected) == Finished
    ensures OutputItems(Node(true, reply)) != [] && Items(OutputItems(Node(true, reply)))
  {
    FinishedIffItems(Node(true, reply));
  }
}
