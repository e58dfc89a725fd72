/** The recursive sanitiser of analysis results, with its shared counter, and exactly which values it accepts. */
module Sanitizer {

  const MAX_JSON_ITEMS := 50_000
  const MAX_JSON_DEPTH := 8
  const MAX_KEY_CHARS := 128

  datatype Scalar = Null | Boolean(flag: bool) | Whole(number: int) | Text(text: string) | Real(value: real)

  datatype Key = StrKey(text: string) | OtherKey

  datatype Entry = Entry(key: Key, value: Value)

  /**
   * A result of analysis code. `Library` is a NumPy scalar or a pandas timestamp, with what the scalar conversion
   * makes of it. The keys of a mapping are distinct, so an assignment to the output always adds an entry.
   */
  datatype Value =
    | Plain(scalar: Scalar)
    | NotFinite
    | Library(json: Scalar)
    | Mapping(entries: seq<Entry>)
    | Sequence(items: seq<Value>)
    | Unsupported

  datatype SanitizeError = TooLarge | TooDeep | NotJson

  datatype Outcome = Success(value: Value) | Failure(error: SanitizeError)

  function Count(v: Value): nat {
    match v
    case Mapping(entries) => |entries|
    case Sequence(items) => |items|
    case _ => 0
  }

  function Child(v: Value, i: nat): (c: Value)
    requires i < Count(v)
    ensures c < v
  {
    if v.Mapping? then v.entries[i].value else v.items[i]
  }

  /** The nodes of a value, and of its first `n` children. */
  function Nodes(v: Value): nat
    decreases v, Count(v) + 1
  {
    1 + NodesUpTo(v, Count(v))
  }

  function NodesUpTo(v: Value, n: nat): nat
    requires n <= Count(v)
    decreases v, n
  {
    if n == 0 then 0 else NodesUpTo(v, n - 1) + Nodes(Child(v, n - 1))
  }

  function Max(a: nat, b: nat): nat {
    if a < b then b else a
  }

  /** The depth of the deepest node below a value. */
  function Height(v: Value): nat
    decreases v, Count(v) + 1
  {
    HeightUpTo(v, Count(v))
  }

  function HeightUpTo(v: Value, n: nat): nat
    requires n <= Count(v)
    decreases v, n
  {
    if n == 0 then 0 else Max(HeightUpTo(v, n - 1), 1 + Height(Child(v, n - 1)))
  }

  predicate GoodKey(key: Key) {
    key.StrKey? && 0 < |key.text| <= MAX_KEY_CHARS
  }

  /** Every leaf is supported and every key is a bounded, non-empty string. */
  predicate Supported(v: Value)
    decreases v
  {
    && !v.Unsupported?
    && (v.Mapping? ==> forall i :: 0 <= i < |v.entries| ==> GoodKey(v.entries[i].key))
    && forall i :: 0 <= i < Count(v) ==> Supported(Child(v, i))
  }

  /** The sanitised value. */
  function Clean(v: Value): Value
    decreases v
  {
    match v
    case NotFinite => Plain(Null)
    case Library(json) => Plain(json)
    case Mapping(entries) =>
      Mapping(seq(|entries|, i requires 0 <= i < |entries| => Entry(entries[i].key, Clean(entries[i].value))))
    case Sequence(items) => Sequence(seq(|items|, i requires 0 <= i < |items| => Clean(items[i])))
    case _ => v
  }

  /**
   * What the output has to be, leaf by leaf: a plain scalar stays, a number that is not finite becomes null, a library
   * scalar its converted form, and mappings and sequences keep their keys and their order.
   */
  predicate Sanitizes(input: Value, output: Value)
    decreases input
  {
    match input
    case Plain(scalar) => output == Plain(scalar)
    case NotFinite => output == Plain(Null)
    case Library(json) => output == Plain(json)
    case Mapping(entries) =>
      && output.Mapping? && |output.entries| == |entries|
      && forall i :: 0 <= i < |entries| ==>
           output.entries[i].key == entries[i].key && Sanitizes(entries[i].value, output.entries[i].value)
    case Sequence(items) =>
      && output.Sequence? && |output.items| == |items|
      && forall i :: 0 <= i < |items| ==> Sanitizes(items[i], output.items[i])
    case Unsupported => false
  }

  lemma {:induction false} CleanSanitizes(v: Value)
    requires Supported(v)
    ensures Sanitizes(v, Clean(v))
    decreases v
  {
    forall i | 0 <= i < Count(v)
      ensures Sanitizes(Child(v, i), Clean(Child(v, i)))
    {
      CleanSanitizes(Child(v, i));
    }
    match v
    case Mapping(entries) =>
      assert forall i :: 0 <= i < |entries| ==> entries[i].value == Child(v, i);
    case Sequence(items) =>
      assert forall i :: 0 <= i < |items| ==> items[i] == Child(v, i);
    case _ =>
  }

  /** The law leaves no choice. */
  lemma {:induction false} SanitizesIsUnique(input: Value, output: Value, other: Value)
    requires Sanitizes(input, output) && Sanitizes(input, other)
    ensures output == other
    decreases input
  {
    match input
    case Mapping(entries) =>
      forall i | 0 <= i < |entries|
        ensures output.entries[i] == other.entries[i]
      {
        SanitizesIsUnique(entries[i].value, output.entries[i].value, other.entries[i].value);
      }
      assert output.entries == other.entries;
    case Sequence(items) =>
      forall i | 0 <= i < |items|
        ensures output.items[i] == other.items[i]
      {
        SanitizesIsUnique(items[i], output.items[i], other.items[i]);
      }
      assert output.items == other.items;
    case _ =>
  }

  lemma {:induction false} PrefixesGrow(v: Value, m: nat, n: nat)
    requires m <= n <= Count(v)
    ensures NodesUpTo(v, m) <= NodesUpTo(v, n)
    ensures HeightUpTo(v, m) <= HeightUpTo(v, n)
  {
    if m == n {
    } else {
      PrefixesGrow(v, m, n - 1);
    }
  }

  lemma {:induction false} SamePrefix(v: Value, w: Value, n: nat)
    requires n <= Count(v) && n <= Count(w) && forall i :: 0 <= i < n ==> Child(v, i) == Child(w, i)
    ensures NodesUpTo(v, n) == NodesUpTo(w, n) && HeightUpTo(v, n) == HeightUpTo(w, n)
  {
    if n == 0 {
    } else {
      SamePrefix(v, w, n - 1);
    }
  }

  /** The children of `v` are those of `left` and then those of `right`. */
  predicate Concatenates(v: Value, left: Value, right: Value) {
    && Count(v) == Count(left) + Count(right)
    && (forall i :: 0 <= i < Count(left) ==> Child(v, i) == Child(left, i))
    && (forall i :: 0 <= i < Count(right) ==> Child(v, Count(left) + i) == Child(right, i))
  }

  lemma {:induction false} AddsUpTo(v: Value, left: Value, right: Value, n: nat)
    requires Concatenates(v, left, right) && n <= Count(right)
    ensures NodesUpTo(v, Count(left) + n) == NodesUpTo(left, Count(left)) + NodesUpTo(right, n)
    ensures HeightUpTo(v, Count(left) + n) == Max(HeightUpTo(left, Count(left)), HeightUpTo(right, n))
  {
    if n == 0 {
      SamePrefix(v, left, Count(left));
    } else {
      AddsUpTo(v, left, right, n - 1);
      assert Child(v, Count(left) + (n - 1)) == Child(right, n - 1);
    }
  }

  /**
   * What the budgets count, without the walk: a leaf is one node and no level, a single child is one more of both, and
   * children side by side add up their nodes and share their levels.
   */
  lemma BudgetsAddUp(v: Value, left: Value, right: Value)
    ensures Count(v) == 0 ==> Nodes(v) == 1 && Height(v) == 0
    ensures Count(v) == 1 ==> Nodes(v) == 1 + Nodes(Child(v, 0)) && Height(v) == 1 + Height(Child(v, 0))
    ensures Concatenates(v, left, right) ==>
              && Nodes(v) + 1 == Nodes(left) + Nodes(right)
              && Height(v) == if Height(left) < Height(right) then Height(right) else Height(left)
  {
    if Count(v) == 1 {
      assert NodesUpTo(v, 0) == 0 && HeightUpTo(v, 0) == 0;
    }
    if Concatenates(v, left, right) {
      AddsUpTo(v, left, right, Count(right));
    }
  }

  /** What a child takes of the budgets of its parent. */
  lemma ChildFits(v: Value, i: nat)
    requires i < Count(v)
    ensures 1 + NodesUpTo(v, i) + Nodes(Child(v, i)) <= Nodes(v)
    ensures 1 + Height(Child(v, i)) <= Height(v)
  {
    PrefixesGrow(v, i + 1, Count(v));
  }

  // ---------------------------------------------------------------- the recursive pass

  class Counter {
    var count: nat

    constructor ()
      ensures count == 0
    {
      count := 0;
    }
  }

  predicate Accepts(v: Value, depth: nat, counted: nat) {
    Supported(v) && depth + Height(v) <= MAX_JSON_DEPTH && counted + Nodes(v) <= MAX_JSON_ITEMS
  }

  /** The error names a bound that the value really exceeds. */
  predicate Justified(error: SanitizeError, v: Value, depth: nat, counted: nat) {
    match error
    case TooLarge => counted + Nodes(v) > MAX_JSON_ITEMS
    case TooDeep => depth + Height(v) > MAX_JSON_DEPTH
    case NotJson => !Supported(v)
  }

  method SanitizeJson(value: Value, depth: nat, counter: Counter) returns (r: Outcome)
    modifies counter
    ensures r.Success? <==> Accepts(value, depth, old(counter.count))
    ensures r.Success? ==> r.value == Clean(value) && counter.count == old(counter.count) + Nodes(value)
    ensures r.Success? ==> Sanitizes(value, r.value)
    ensures r.Failure? ==> Justified(r.error, value, depth, old(counter.count))
    decreases value, 1
  {
    counter.count := counter.count + 1;
    if counter.count > MAX_JSON_ITEMS {
      return Failure(TooLarge);
    }
    if depth > MAX_JSON_DEPTH {
      return Failure(TooDeep);
    }
    if Count(value) == 0 {
      assert NodesUpTo(value, 0) == 0 && HeightUpTo(value, 0) == 0;
    }
    match value
    case Plain(_) =>
      return Success(value);
    case NotFinite =>
      return Success(Plain(Null));
    case Library(json) =>
      return Success(Plain(json));
    case Mapping(_) =>
      r := SanitizeMapping(value, depth, counter);
    case Sequence(_) =>
      r := SanitizeSequence(value, depth, counter);
    case Unsupported =>
      return Failure(NotJson);
  }

  /** The children before the `n`th were accepted and counted. */
  ghost predicate Done(v: Value, n: nat, depth: nat, counted: nat, count: nat) {
    && n <= Count(v)
    && count == counted + 1 + NodesUpTo(v, n) <= MAX_JSON_ITEMS
    && depth + HeightUpTo(v, n) <= MAX_JSON_DEPTH
    && forall i :: 0 <= i < n ==> Supported(Child(v, i))
  }

  lemma ChildRejected(v: Value, n: nat, depth: nat, counted: nat, count: nat, error: SanitizeError)
    requires n < Count(v) && Done(v, n, depth, counted, count)
    requires Justified(error, Child(v, n), depth + 1, count)
    ensures Justified(error, v, depth, counted) && !Accepts(v, depth, counted)
  {
    ChildFits(v, n);
  }

  lemma ChildAccepted(v: Value, n: nat, depth: nat, counted: nat, count: nat)
    requires n < Count(v) && Done(v, n, depth, counted, count)
    requires Accepts(Child(v, n), depth + 1, count)
    ensures Done(v, n + 1, depth, counted, count + Nodes(Child(v, n)))
  {
  }

  lemma NoneDone(v: Value, depth: nat, counted: nat)
    requires depth <= MAX_JSON_DEPTH && counted < MAX_JSON_ITEMS
    ensures Done(v, 0, depth, counted, counted + 1)
  {
  }

  lemma SanitizesAll(v: Value, depth: nat, counted: nat)
    requires Accepts(v, depth, counted)
    ensures Sanitizes(v, Clean(v))
  {
    CleanSanitizes(v);
  }

  lemma AllDone(v: Value, depth: nat, counted: nat, count: nat)
    requires Done(v, Count(v), depth, counted, count) && !v.Unsupported?
    requires v.Mapping? ==> forall i :: 0 <= i < |v.entries| ==> GoodKey(v.entries[i].key)
    ensures Accepts(v, depth, counted) && count == counted + Nodes(v)
  {
  }

  method SanitizeMapping(value: Value, depth: nat, counter: Counter) returns (r: Outcome)
    requires value.Mapping? && depth <= MAX_JSON_DEPTH && 1 <= counter.count <= MAX_JSON_ITEMS
    modifies counter
    ensures r.Success? <==> Accepts(value, depth, old(counter.count) - 1)
    ensures r.Success? ==> r.value == Clean(value) && counter.count == old(counter.count) - 1 + Nodes(value)
    ensures r.Success? ==> Sanitizes(value, r.value)
    ensures r.Failure? ==> Justified(r.error, value, depth, old(counter.count) - 1)
    decreases value, 0
  {
    hide Accepts, Done, Clean, Supported, Justified, Nodes, Sanitizes;
    ghost var counted := counter.count - 1;
    var entries := value.entries;
    NoneDone(value, depth, counted);
    var output: seq<Entry> := [];
    for n := 0 to |entries|
      invariant Done(value, n, depth, counted, counter.count)
      invariant forall i :: 0 <= i < n ==> GoodKey(entries[i].key)
      invariant |output| == n && forall i :: 0 <= i < n ==> output[i] == Entry(entries[i].key, Clean(Child(value, i)))
    {
      if !GoodKey(entries[n].key) {
        BadKey(value, n);
        Refused(value, depth, counted);
        return Failure(NotJson);
      }
      assert Child(value, n) == entries[n].value;
      ghost var count := counter.count;
      var item := SanitizeJson(entries[n].value, depth + 1, counter);
      if item.Failure? {
        ChildRejected(value, n, depth, counted, count, item.error);
        return item;
      }
      ChildAccepted(value, n, depth, counted, count);
      output := output + [Entry(entries[n].key, item.value)];
    }
    CleanMapping(value, output);
    AllDone(value, depth, counted, counter.count);
    SanitizesAll(value, depth, counted);
    return Success(Mapping(output));
  }

  lemma BadKey(v: Value, n: nat)
    requires v.Mapping? && n < |v.entries| && !GoodKey(v.entries[n].key)
    ensures !Supported(v)
  {
  }

  lemma Refused(v: Value, depth: nat, counted: nat)
    requires !Supported(v)
    ensures Justified(NotJson, v, depth, counted) && !Accepts(v, depth, counted)
  {
  }

  lemma CleanMapping(v: Value, output: seq<Entry>)
    requires v.Mapping? && |output| == |v.entries|
    requires forall i :: 0 <= i < |output| ==> output[i] == Entry(v.entries[i].key, Clean(Child(v, i)))
    ensures Clean(v) == Mapping(output)
  {
    assert Clean(v).entries == output;
  }

  lemma CleanSequence(v: Value, output: seq<Value>)
    requires v.Sequence? && |output| == |v.items|
    requires forall i :: 0 <= i < |output| ==> output[i] == Clean(Child(v, i))
    ensures Clean(v) == Sequence(output)
  {
    assert Clean(v).items == output;
  }

  method SanitizeSequence(value: Value, depth: nat, counter: Counter) returns (r: Outcome)
    requires value.Sequence? && depth <= MAX_JSON_DEPTH && 1 <= counter.count <= MAX_JSON_ITEMS
    modifies counter
    ensures r.Success? <==> Accepts(value, depth, old(counter.count) - 1)
    ensures r.Success? ==> r.value == Clean(value) && counter.count == old(counter.count) - 1 + Nodes(value)
    ensures r.Success? ==> Sanitizes(value, r.value)
    ensures r.Failure? ==> Justified(r.error, value, depth, old(counter.count) - 1)
    decreases value, 0
  {
    hide Accepts, Done, Clean, Supported, Justified, Nodes, Sanitizes;
    ghost var counted := counter.count - 1;
    var items := value.items;
    NoneDone(value, depth, counted);
    var output: seq<Value> := [];
    for n := 0 to |items|
      invariant Done(value, n, depth, counted, counter.count)
      invariant |output| == n && forall i :: 0 <= i < n ==> output[i] == Clean(Child(value, i))
    {
      assert Child(value, n) == items[n];
      ghost var count := counter.count;
      var item := SanitizeJson(items[n], depth + 1, counter);
      if item.Failure? {
        ChildRejected(value, n, depth, counted, count, item.error);
        return item;
      }
      ChildAccepted(value, n, depth, counted, count);
      output := output + [item.value];
    }
    CleanSequence(value, output);
    AllDone(value, depth, counted, counter.count);
    SanitizesAll(value, depth, counted);
    return Success(Sequence(output));
  }

  /** The call on a whole result: a fresh counter, depth zero. */
  method Sanitize(value: Value) returns (r: Outcome)
    ensures r.Success? <==> Supported(value) && Height(value) <= MAX_JSON_DEPTH && Nodes(value) <= MAX_JSON_ITEMS
    ensures r.Success? ==> Sanitizes(value, r.value) && r.value == Clean(value)
    ensures r.Failure? ==> Justified(r.error, value, 0, 0)
  {
    var counter := new Counter();
    r := SanitizeJson(value, 0, counter);
  }

  // ---------------------------------------------------------------- what sanitising preserves

  lemma CleanChild(v: Value, i: nat)
    requires i < Count(v)
    ensures Count(Clean(v)) == Count(v) && Child(Clean(v), i) == Clean(Child(v, i))
  {
  }

  /** The output has the shape of the input: as many nodes and as deep. */
  lemma {:induction false} CleanKeepsShape(v: Value)
    ensures Count(Clean(v)) == Count(v)
    ensures Nodes(Clean(v)) == Nodes(v) && Height(Clean(v)) == Height(v)
    decreases v, Count(v) + 1
  {
    CleanKeepsPrefix(v, Count(v));
  }

  lemma {:induction false} CleanKeepsPrefix(v: Value, n: nat)
    requires n <= Count(v)
    ensures Count(Clean(v)) == Count(v)
    ensures NodesUpTo(Clean(v), n) == NodesUpTo(v, n) && HeightUpTo(Clean(v), n) == HeightUpTo(v, n)
    decreases v, n
  {
    if n == 0 {
    } else {
      CleanKeepsPrefix(v, n - 1);
      CleanChild(v, n - 1);
      CleanKeepsShape(Child(v, n - 1));
    }
  }

  /** Only plain scalars, mappings and sequences are left. */
  predicate IsJson(v: Value)
    decreases v
  {
    && !v.NotFinite? && !v.Library? && !v.Unsupported?
    && forall i :: 0 <= i < Count(v) ==> IsJson(Child(v, i))
  }

  lemma {:induction false} CleanIsJson(v: Value)
    requires Supported(v)
    ensures IsJson(Clean(v)) && Supported(Clean(v))
    decreases v
  {
    forall i | 0 <= i < Count(v)
      ensures IsJson(Child(Clean(v), i)) && Supported(Child(Clean(v), i))
    {
      CleanChild(v, i);
      CleanIsJson(Child(v, i));
    }
  }

  lemma {:induction false} CleanFixesJson(v: Value)
    requires IsJson(v)
    ensures Clean(v) == v
    decreases v
  {
    forall i | 0 <= i < Count(v)
      ensures Clean(Child(v, i)) == Child(v, i)
    {
      CleanFixesJson(Child(v, i));
    }
    match v
    case Mapping(entries) =>
      assert forall i :: 0 <= i < |entries| ==> Clean(Child(v, i)) == entries[i].value;
      assert Clean(v).entries == entries;
    case Sequence(items) =>
      assert forall i :: 0 <= i < |items| ==> Clean(Child(v, i)) == items[i];
      assert Clean(v).items == items;
    case _ =>
  }

  /** A sanitised result passes again, within the same budgets, and is not changed any more. */
  lemma SanitizingIsIdempotent(v: Value, depth: nat, counted: nat)
    requires Accepts(v, depth, counted)
    ensures Accepts(Clean(v), depth, counted) && Clean(Clean(v)) == Clean(v)
    ensures Nodes(Clean(v)) == Nodes(v)
  {
    CleanKeepsShape(v);
    CleanIsJson(v);
    CleanFixesJson(Clean(v));
  }

  // ---------------------------------------------------------------- the capped output stream

  /** Text written by analysis code, up to a byte limit. */
  class CappedText {
    const maximumBytes: nat
    var bytesWritten: nat
    var written: seq<seq<bv8>>

    ghost predicate Valid()
      reads this
    {
      bytesWritten == TotalSize(written) <= maximumBytes
    }

    constructor (maximumBytes: nat)
      ensures Valid() && this.maximumBytes == maximumBytes && written == []
    {
      this.maximumBytes := maximumBytes;
      bytesWritten, written := 0, [];
    }

    method Write(encoded: seq<bv8>) returns (ok: bool)
      requires Valid()
      modifies this
      ensures Valid()
      ensures ok <==> TotalSize(old(written)) + |encoded| <= maximumBytes
      ensures written == if ok then old(written) + [encoded] else old(written)
    {
      if bytesWritten + |encoded| > maximumBytes {
        return false;
      }
      bytesWritten := bytesWritten + |encoded|;
      written := written + [encoded];
      return true;
    }
  }

  function TotalSize(chunks: seq<seq<bv8>>): nat {
    if chunks == [] then 0 else TotalSize(chunks[..|chunks| - 1]) + |chunks[|chunks| - 1]|
  }
}
