/**
 `trace.hpp`: injecting trace context into a carrier and extracting it again.

 Two carriers: a plain string map, and the headers of a message, where a key has a list of values,
 set replaces the list and get returns its first value. Message headers go through C strings, so
 keys and values end at their first NUL character there; and a default-constructed message carries
 nothing.
 */
module Trace {
  import opened Common

  datatype Carrier =
    | Plain(entries: map<string, string>)
    | Headers(lists: map<string, seq<string>>)     // headers of a valid message
    | NoMessage                                    // a message without a native handle

  /** What C code sees of a string. */
  function CString(s: string): (r: string)
    ensures r <= s && 0 as char !in r
    ensures r == s || s[|r|] == 0 as char
    ensures r == s <==> 0 as char !in s
  {
    if s == [] || s[0] == 0 as char then []
    else
      var r := CString(s[1..]);
      assert s == [s[0]] + s[1..];
      [s[0]] + r
  }

  /** The identity of a key, and what a value becomes, in a carrier. */
  function Name(c: Carrier, key: string): string { if c.Plain? then key else CString(key) }

  function Stored(c: Carrier, value: string): string { if c.Plain? then value else CString(value) }

  /** `carrier.set(key, value)` when the native call, if any, succeeds. */
  function Set(c: Carrier, key: string, value: string): Carrier {
    match c
    case Plain(m) => Plain(m[key := value])
    case Headers(m) => Headers(m[CString(key) := [CString(value)]])
    case NoMessage => NoMessage
  }

  /** `carrier.get(key)`: empty when there is nothing. */
  function Get(c: Carrier, key: string): string {
    match c
    case Plain(m) => if key in m then m[key] else ""
    case Headers(m) => if CString(key) in m && m[CString(key)] != [] then m[CString(key)][0] else ""
    case NoMessage => ""
  }

  /** The law both helpers rest on. */
  lemma {:induction false} GetAfterSet(c: Carrier, key: string, value: string, other: string)
    ensures Get(Set(c, key, value), other) ==
            if c.NoMessage? then ""
            else if Name(c, key) == Name(c, other) then Stored(c, value)
            else Get(c, other)
    ensures Name(Set(c, key, value), other) == Name(c, other) && Stored(Set(c, key, value), other) == Stored(c, other)
  {
  }

  /** What `set` leaves: a map has the value under the key; a message has exactly the one value, cut
      at its first NUL, under the key cut at its own; every other key is as it was. */
  lemma {:induction false} SetLeaves(key: string, value: string, m: map<string, string>, lists: map<string, seq<string>>)
    ensures Set(Plain(m), key, value) == Plain(m[key := value])
    ensures
      var t := Set(Headers(lists), key, value);
      && t.Headers? && CString(key) in t.lists && t.lists[CString(key)] == [CString(value)]
      && forall k :: k != CString(key) ==> (k in t.lists <==> k in lists) && (k in lists ==> t.lists[k] == lists[k])
    ensures Set(NoMessage, key, value) == NoMessage
  {
  }

  // ---------------------------------------------------------------- inject

  type Pair = (string, string)

  function Injected(c: Carrier, pairs: seq<Pair>): Carrier
    decreases |pairs|
  {
    if pairs == [] then c else Injected(Set(c, pairs[0].0, pairs[0].1), pairs[1..])
  }

  /** The value of the last pair that sets `key` in carrier `c`. */
  function Last(c: Carrier, pairs: seq<Pair>, key: string): Option<string> {
    if pairs == [] then None
    else
      var later := Last(c, pairs[1..], key);
      if later.Some? then later
      else if Name(c, pairs[0].0) == Name(c, key) then Some(pairs[0].1)
      else None
  }

  /** After an injection every key reads as its last injected value, or as before. */
  lemma {:induction false} GetAfterInject(c: Carrier, pairs: seq<Pair>, key: string)
    ensures Get(Injected(c, pairs), key) ==
            if c.NoMessage? then ""
            else if Last(c, pairs, key).Some? then Stored(c, Last(c, pairs, key).value)
            else Get(c, key)
    decreases |pairs|
  {
    if pairs != [] {
      var d := Set(c, pairs[0].0, pairs[0].1);
      GetAfterSet(c, pairs[0].0, pairs[0].1, key);
      GetAfterInject(d, pairs[1..], key);
      SameCarrierKind(c, d, pairs[1..], key);
      if Last(c, pairs[1..], key).Some? {
        GetAfterSet(c, pairs[0].0, pairs[0].1, Last(c, pairs[1..], key).value);
      }
    }
  }

  /** The last pair that names the key: it is there, and no later one names it. */
  predicate IsLast(c: Carrier, pairs: seq<Pair>, key: string, i: int) {
    && 0 <= i < |pairs|
    && (if c.Plain? then pairs[i].0 == key else CString(pairs[i].0) == CString(key))
    && forall j :: i < j < |pairs| ==> if c.Plain? then pairs[j].0 != key else CString(pairs[j].0) != CString(key)
  }

  lemma {:induction false} LastIs(c: Carrier, pairs: seq<Pair>, key: string)
    ensures forall i :: IsLast(c, pairs, key, i) ==> Last(c, pairs, key) == Some(pairs[i].1)
    ensures Last(c, pairs, key).Some? ==> exists i :: IsLast(c, pairs, key, i)
    decreases |pairs|
  {
    if pairs != [] {
      var rest := pairs[1..];
      LastIs(c, rest, key);
      forall i | 0 < i && IsLast(c, pairs, key, i) ensures IsLast(c, rest, key, i - 1) {
        assert forall j :: 0 <= j < |rest| ==> rest[j] == pairs[j + 1];
      }
      if k :| IsLast(c, rest, key, k) {
        assert rest[k] == pairs[k + 1];
        assert forall j :: 0 < j < |pairs| ==> pairs[j] == rest[j - 1];
        assert IsLast(c, pairs, key, k + 1);
      } else if Last(c, pairs, key).Some? {
        NoneLater(c, pairs, key);
      }
    }
  }

  lemma {:induction false} NoneLater(c: Carrier, pairs: seq<Pair>, key: string)
    requires pairs != [] && Last(c, pairs[1..], key).None? && Name(c, pairs[0].0) == Name(c, key)
    ensures IsLast(c, pairs, key, 0)
  {
    forall j | 0 < j < |pairs| ensures Name(c, pairs[j].0) != Name(c, key) {
      NotNamed(c, pairs[1..], key, j - 1);
    }
  }

  lemma {:induction false} NotNamed(c: Carrier, pairs: seq<Pair>, key: string, j: nat)
    requires Last(c, pairs, key).None? && j < |pairs|
    ensures Name(c, pairs[j].0) != Name(c, key)
    decreases |pairs|
  {
    if j > 0 { NotNamed(c, pairs[1..], key, j - 1); }
  }

  lemma {:induction false} SameCarrierKind(c: Carrier, d: Carrier, pairs: seq<Pair>, key: string)
    requires c.Plain? <==> d.Plain?
    ensures Last(c, pairs, key) == Last(d, pairs, key)
    decreases |pairs|
  {
    if pairs != [] { SameCarrierKind(c, d, pairs[1..], key); }
  }

  class CarrierObject {
    var carrier: Carrier

    constructor (carrier: Carrier)
      ensures this.carrier == carrier
    {
      this.carrier := carrier;
    }

    /** `set`: on a valid message the native call may fail, which throws and changes nothing. */
    method SetValue(key: string, value: string, outcome: Status) returns (status: Status)
      modifies this
      ensures status == if carrier.Headers? then outcome else Ok
      ensures carrier == if status.Ok? then Set(old(carrier), key, value) else old(carrier)
    {
      if carrier.Headers? && outcome.Failed? {
        return outcome;
      }
      carrier := Set(carrier, key, value);
      return Ok;
    }
  }

  /** `inject_trace_context`: sets the pairs in order; a failing set stops the loop, with the pairs
      before it already set. */
  method InjectTraceContext(c: CarrierObject, pairs: seq<Pair>, outcomes: seq<Status>) returns (status: Status, ghost done: nat)
    requires |outcomes| == |pairs|
    modifies c
    ensures done <= |pairs| && c.carrier == Injected(old(c.carrier), pairs[..done])
    ensures status.Ok? ==> done == |pairs| && c.carrier == Injected(old(c.carrier), pairs)
    ensures status.Failed? ==> done < |pairs| && old(c.carrier).Headers? && status == outcomes[done]
    ensures forall i :: 0 <= i < done && old(c.carrier).Headers? ==> outcomes[i].Ok?
  {
    done := 0;
    assert pairs[..0] == [];
    for i := 0 to |pairs|
      invariant done == i && c.carrier == Injected(old(c.carrier), pairs[..i])
      invariant c.carrier.Headers? <==> old(c.carrier).Headers?
      invariant forall k :: 0 <= k < i && old(c.carrier).Headers? ==> outcomes[k].Ok?
    {
      InjectSnoc(old(c.carrier), pairs[..i], pairs[i]);
      assert pairs[..i + 1] == pairs[..i] + [pairs[i]];
      status := c.SetValue(pairs[i].0, pairs[i].1, outcomes[i]);
      if status.Failed? {
        return;
      }
      done := i + 1;
    }
    assert pairs[..|pairs|] == pairs;
    status := Ok;
  }

  lemma {:induction false} InjectSnoc(c: Carrier, pairs: seq<Pair>, p: Pair)
    ensures Injected(c, pairs + [p]) == Set(Injected(c, pairs), p.0, p.1)
    decreases |pairs|
  {
    if pairs == [] {
      assert [p][1..] == [];
      assert Injected(Set(c, p.0, p.1), []) == Set(c, p.0, p.1);
      assert pairs + [p] == [p];
    } else {
      InjectSnoc(Set(c, pairs[0].0, pairs[0].1), pairs[1..], p);
      assert (pairs + [p])[1..] == pairs[1..] + [p];
    }
  }

  // ---------------------------------------------------------------- extract

  type Out = map<string, string>

  /** `out` extended by every requested key it lacks for which the carrier has a value. */
  ghost predicate ExtractedFrom(c: Carrier, keys: seq<string>, out: Out, result: Out) {
    && (forall k :: k in result <==> k in out || (k in keys && Get(c, k) != ""))
    && (forall k :: k in result ==> result[k] == if k in out then out[k] else Get(c, k))
  }

  /** The property determines the result. */
  lemma {:induction false} ExtractedUnique(c: Carrier, keys: seq<string>, out: Out, r1: Out, r2: Out)
    requires ExtractedFrom(c, keys, out, r1) && ExtractedFrom(c, keys, out, r2)
    ensures r1 == r2
  {
    assert forall k :: k in r1 <==> k in r2;
  }

  /** `extract_trace_context`: `emplace` never overwrites. */
  method ExtractTraceContext(carrier: Carrier, keys: seq<string>, out: Out) returns (result: Out)
    ensures ExtractedFrom(carrier, keys, out, result)
  {
    result := out;
    for i := 0 to |keys|
      invariant ExtractedFrom(carrier, keys[..i], out, result)
    {
      assert keys[..i + 1] == keys[..i] + [keys[i]];
      var value := Get(carrier, keys[i]);
      if value != "" && keys[i] !in result {
        result := result[keys[i] := value];
      }
    }
    assert keys[..|keys|] == keys;
  }

  /** What extraction adds, read off the carrier's entries: from a map, the non-empty values of the
      requested keys it has. */
  lemma {:induction false} ExtractsFromMap(m: map<string, string>, keys: seq<string>, out: Out, result: Out)
    requires ExtractedFrom(Plain(m), keys, out, result)
    ensures forall k :: k in out ==> k in result && result[k] == out[k]
    ensures forall k :: k !in out ==> (k in result <==> k in keys && k in m && m[k] != "")
    ensures forall k :: k !in out && k in result ==> result[k] == m[k]
  {
  }

  /** From the headers of a message, the first value under each requested key's C string, if the list
      is there, is not empty, and does not start with an empty value. */
  lemma {:induction false} ExtractsFromHeaders(m: map<string, seq<string>>, keys: seq<string>, out: Out, result: Out)
    requires ExtractedFrom(Headers(m), keys, out, result)
    ensures forall k :: k in out ==> k in result && result[k] == out[k]
    ensures forall k :: k !in out ==>
              (k in result <==> k in keys && CString(k) in m && |m[CString(k)]| > 0 && m[CString(k)][0] != "")
    ensures forall k :: k !in out && k in result ==> result[k] == m[CString(k)][0]
  {
  }

  /** From a message without a handle, nothing. */
  lemma {:induction false} ExtractsNothing(keys: seq<string>, out: Out, result: Out)
    requires ExtractedFrom(NoMessage, keys, out, result)
    ensures result == out
  {
    assert forall k :: k in result <==> k in out;
  }

  // ---------------------------------------------------------------- round trip

  /** Round trip, for all pairs, keys, prior headers and prior output: extraction after injection adds
      exactly the requested keys absent from the output whose last injected value, or else prior
      header, is not empty, and changes no existing entry. */
  lemma {:induction false} RoundTrip(c: Carrier, pairs: seq<Pair>, keys: seq<string>, out: Out, result: Out)
    requires !c.NoMessage?
    requires ExtractedFrom(Injected(c, pairs), keys, out, result)
    ensures forall k :: k in out ==> k in result && result[k] == out[k]
    ensures forall k :: k !in out && k in result ==>
              k in keys && result[k] != ""
              && result[k] == if Last(c, pairs, k).Some? then Stored(c, Last(c, pairs, k).value) else Get(c, k)
    ensures forall k :: k !in out && k in keys && k !in result ==>
              "" == if Last(c, pairs, k).Some? then Stored(c, Last(c, pairs, k).value) else Get(c, k)
  {
    forall k ensures Get(Injected(c, pairs), k) == if Last(c, pairs, k).Some? then Stored(c, Last(c, pairs, k).value) else Get(c, k) {
      GetAfterInject(c, pairs, k);
    }
  }

  /** The same, pair by pair: a requested key absent from the output is added iff the value of the last
      pair that names it is not empty as the carrier keeps it, and then with that value. */
  lemma {:induction false} RoundTripByPairs(
      c: Carrier, pairs: seq<Pair>, keys: seq<string>, out: Out, result: Out, k: string, i: nat)
    requires !c.NoMessage? && ExtractedFrom(Injected(c, pairs), keys, out, result)
    requires k in keys && k !in out && IsLast(c, pairs, k, i)
    ensures
      var v := if c.Plain? then pairs[i].1 else CString(pairs[i].1);
      (k in result <==> v != "") && (k in result ==> result[k] == v)
  {
    GetAfterInject(c, pairs, k);
    LastIs(c, pairs, k);
  }

  /** And where no pair names it, iff the carrier had a value before. */
  lemma {:induction false} RoundTripOfPrior(c: Carrier, pairs: seq<Pair>, keys: seq<string>, out: Out, result: Out, k: string)
    requires !c.NoMessage? && ExtractedFrom(Injected(c, pairs), keys, out, result)
    requires k in keys && k !in out && forall i :: !IsLast(c, pairs, k, i)
    ensures
      match c
      case Plain(m) => (k in result <==> k in m && m[k] != "") && (k in result ==> result[k] == m[k])
      case Headers(m) =>
        && (k in result <==> CString(k) in m && |m[CString(k)]| > 0 && m[CString(k)][0] != "")
        && (k in result ==> result[k] == m[CString(k)][0])
      case NoMessage => true
  {
    GetAfterInject(c, pairs, k);
    LastIs(c, pairs, k);
  }

  /** What was injected comes back unchanged exactly when it survives the carrier: always for a plain
      map; for message headers iff the value contains no NUL character. */
  lemma {:induction false} ComesBackIff(c: Carrier, pairs: seq<Pair>, keys: seq<string>, k: string, v: string, out: Out, result: Out)
    requires !c.NoMessage? && ExtractedFrom(Injected(c, pairs), keys, out, result)
    requires k in keys && k !in out && v != "" && Last(c, pairs, k) == Some(v)
    ensures k in result && result[k] == v <==> c.Plain? || 0 as char !in v
  {
    GetAfterInject(c, pairs, k);
  }

  // ---------------------------------------------------------------- order laws

  /** Permuting or duplicating the keys does not change what is extracted. */
  lemma {:induction false} KeyOrderIrrelevant(c: Carrier, keys: seq<string>, others: seq<string>, out: Out, r1: Out, r2: Out)
    requires forall k :: k in keys <==> k in others
    requires ExtractedFrom(c, keys, out, r1) && ExtractedFrom(c, others, out, r2)
    ensures r1 == r2
  {
    ExtractedUnique(c, keys, out, r1, r2);
  }

  /** Two pair lists that give every key the same last value leave carriers no extraction can tell
      apart. */
  lemma {:induction false} SameLastValuesSameCarrier(
      c: Carrier, pairs: seq<Pair>, others: seq<Pair>, keys: seq<string>, out: Out, r1: Out, r2: Out)
    requires forall k :: Last(c, pairs, k) == Last(c, others, k)
    requires ExtractedFrom(Injected(c, pairs), keys, out, r1) && ExtractedFrom(Injected(c, others), keys, out, r2)
    ensures forall k :: Get(Injected(c, pairs), k) == Get(Injected(c, others), k)
    ensures r1 == r2
  {
    forall k ensures Get(Injected(c, pairs), k) == Get(Injected(c, others), k) {
      GetAfterInject(c, pairs, k);
      GetAfterInject(c, others, k);
    }
    ExtractedUnique(Injected(c, pairs), keys, out, r1, r2);
  }
}
