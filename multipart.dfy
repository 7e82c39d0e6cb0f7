/**
 * Multipart request bodies as the API modules build them: a `FormData` is the sequence of its
 * `append(key, value)` calls, in order. Each builder decides, field by field, whether a key is
 * appended; `Present` is that decision written as a list of candidates, one per key, each with
 * the value that is appended or `None`.
 */
module Multipart {
  import opened Wrappers

  /** A browser `File`: its name, its size in bytes and its MIME type. */
  datatype File = File(name: string, size: nat, mime: string)

  /** A `FormData` value: a string or a file. */
  datatype Part = Text(text: string) | Blob(file: File)

  /** One `formData.append(key, value)` call. */
  datatype Entry = Entry(key: string, part: Part)

  /** A TypeScript field of type `string | null` that may also be left out (`undefined`). */
  datatype JsOpt = Undefined | Null | Str(s: string)

  /** JavaScript truthiness of such a field: only a non-empty string is truthy. */
  predicate IsTruthy(o: JsOpt) {
    o.Str? && o.s != ""
  }

  datatype Verb = Post | Put

  /** A `multipart/form-data` request: its HTTP verb, its path and its body. */
  datatype MultipartRequest = MultipartRequest(verb: Verb, path: string, body: seq<Entry>)

  /** One key a builder may append, with the value it appends or `None` when it skips the key. */
  datatype Candidate = Candidate(key: string, value: Option<Part>)

  /** The body a builder leaves: the appended candidates, in candidate order. */
  function Present(cs: seq<Candidate>): (body: seq<Entry>)
    ensures |body| <= |cs|
    decreases |cs|
  {
    if cs == [] then []
    else (if cs[0].value.Some? then [Entry(cs[0].key, cs[0].value.value)] else []) + Present(cs[1..])
  }

  function Keys(body: seq<Entry>): (ks: seq<string>)
    ensures |ks| == |body|
    ensures forall i :: 0 <= i < |body| ==> ks[i] == body[i].key
  {
    seq(|body|, i requires 0 <= i < |body| => body[i].key)
  }

  function CandidateKeys(cs: seq<Candidate>): (ks: seq<string>)
    ensures |ks| == |cs|
    ensures forall i :: 0 <= i < |cs| ==> ks[i] == cs[i].key
  {
    seq(|cs|, i requires 0 <= i < |cs| => cs[i].key)
  }

  /** `formData.get(key)`: the value of the first entry with that key. */
  function Lookup(body: seq<Entry>, key: string): Option<Part>
    decreases |body|
  {
    if body == [] then None
    else if body[0].key == key then Some(body[0].part)
    else Lookup(body[1..], key)
  }

  /** `formData.getAll(key).length` */
  function Count(body: seq<Entry>, key: string): nat
    decreases |body|
  {
    if body == [] then 0 else (if body[0].key == key then 1 else 0) + Count(body[1..], key)
  }

  predicate DistinctKeys(ks: seq<string>) {
    forall i, j :: 0 <= i < j < |ks| ==> ks[i] != ks[j]
  }

  /** `a` is `b` with some elements left out, the rest in the same order. */
  predicate IsSubsequence(a: seq<string>, b: seq<string>)
    decreases |b|
  {
    if a == [] then true
    else if b == [] then false
    else if a[0] == b[0] then IsSubsequence(a[1..], b[1..])
    else IsSubsequence(a, b[1..])
  }

  /** `if (value) formData.append(key, value)`: only a non-empty string is sent. */
  function IfTruthy(value: JsOpt): (r: Option<Part>)
    ensures r.Some? <==> IsTruthy(value)
    ensures r.Some? ==> r.value == Text(value.s)
  {
    if IsTruthy(value) then Some(Text(value.s)) else None
  }

  /** `if (value !== undefined) formData.append(key, value ?? '')`: null is sent as the empty string. */
  function IfDefined(value: JsOpt): (r: Option<Part>)
    ensures r.Some? <==> !value.Undefined?
    ensures value.Null? ==> r == Some(Text(""))
    ensures value.Str? ==> r == Some(Text(value.s))
  {
    match value
    case Undefined => None
    case Null => Some(Text(""))
    case Str(s) => Some(Text(s))
  }

  /** `if (file) formData.append(key, file)` */
  function IfFile(file: Option<File>): (r: Option<Part>)
    ensures r.Some? <==> file.Some?
    ensures file.Some? ==> r == Some(Blob(file.value))
  {
    if file.Some? then Some(Blob(file.value)) else None
  }

  /**
   * A browser `FormData` being filled. `decided` records, for every step taken so far, the key
   * and what was appended for it (or `None` when the step appended nothing), so that the entries
   * are always `Present(decided)`.
   */
  class FormData {
    var entries: seq<Entry>
    ghost var decided: seq<Candidate>

    ghost predicate Valid()
      reads this
    {
      entries == Present(decided)
    }

    /** `new FormData()` */
    constructor ()
      ensures Valid() && entries == [] && decided == []
    {
      entries := [];
      decided := [];
    }

    /** `formData.append(key, part)` */
    method Append(key: string, part: Part)
      requires Valid()
      modifies this
      ensures Valid() && decided == old(decided) + [Candidate(key, Some(part))]
      ensures entries == old(entries) + [Entry(key, part)]
    {
      PresentAppend(decided, [Candidate(key, Some(part))]);
      entries := entries + [Entry(key, part)];
      decided := decided + [Candidate(key, Some(part))];
    }

    /** A guarded append whose guard failed: nothing is appended for `key`. */
    ghost method Skip(key: string)
      requires Valid()
      modifies this
      ensures Valid() && decided == old(decided) + [Candidate(key, None)]
      ensures entries == old(entries)
    {
      PresentAppend(decided, [Candidate(key, None)]);
      decided := decided + [Candidate(key, None)];
    }

    /** `if (value) formData.append(key, value)` */
    method AppendIfTruthy(key: string, value: JsOpt)
      requires Valid()
      modifies this
      ensures Valid() && decided == old(decided) + [Candidate(key, IfTruthy(value))]
    {
      PresentAppend(decided, [Candidate(key, IfTruthy(value))]);
      if IsTruthy(value) {
        entries := entries + [Entry(key, Text(value.s))];
      }
      decided := decided + [Candidate(key, IfTruthy(value))];
    }

    /** `if (value !== undefined) formData.append(key, value ?? '')` */
    method AppendIfDefined(key: string, value: JsOpt)
      requires Valid()
      modifies this
      ensures Valid() && decided == old(decided) + [Candidate(key, IfDefined(value))]
    {
      PresentAppend(decided, [Candidate(key, IfDefined(value))]);
      if !value.Undefined? {
        var text := if value.Null? then "" else value.s;
        entries := entries + [Entry(key, Text(text))];
      }
      decided := decided + [Candidate(key, IfDefined(value))];
    }

    /** `if (file) formData.append(key, file)` */
    method AppendIfFile(key: string, file: Option<File>)
      requires Valid()
      modifies this
      ensures Valid() && decided == old(decided) + [Candidate(key, IfFile(file))]
    {
      PresentAppend(decided, [Candidate(key, IfFile(file))]);
      if file.Some? {
        entries := entries + [Entry(key, Blob(file.value))];
      }
      decided := decided + [Candidate(key, IfFile(file))];
    }
  }

  lemma {:induction false} PresentAppend(a: seq<Candidate>, b: seq<Candidate>)
    ensures Present(a + b) == Present(a) + Present(b)
    decreases |a|
  {
    if a == [] {
      assert a + b == b;
    } else {
      var head := if a[0].value.Some? then [Entry(a[0].key, a[0].value.value)] else [];
      PresentAppend(a[1..], b);
      assert (a + b)[0] == a[0];
      assert (a + b)[1..] == a[1..] + b;
      assert Present(a + b) == head + Present(a[1..] + b);
      assert Present(a) == head + Present(a[1..]);
      assert head + (Present(a[1..]) + Present(b)) == (head + Present(a[1..])) + Present(b);
    }
  }

  /** Looking up in a body whose first candidate is decided: that entry, else the rest. */
  lemma PresentLookupStep(cs: seq<Candidate>, key: string)
    requires cs != []
    ensures Lookup(Present(cs), key) ==
      if cs[0].value.Some? && cs[0].key == key then cs[0].value else Lookup(Present(cs[1..]), key)
  {
    var rest := Present(cs[1..]);
    if cs[0].value.Some? {
      var e := Entry(cs[0].key, cs[0].value.value);
      assert Present(cs) == [e] + rest;
      assert ([e] + rest)[1..] == rest;
    } else {
      assert Present(cs) == [] + rest == rest;
    }
  }

  /** With distinct keys, looking a key up in the body gives exactly that candidate's decision. */
  lemma {:induction false} PresentLookup(cs: seq<Candidate>, i: nat)
    requires DistinctKeys(CandidateKeys(cs))
    requires i < |cs|
    ensures Lookup(Present(cs), cs[i].key) == cs[i].value
    decreases |cs|
  {
    var rest := cs[1..];
    assert CandidateKeys(rest) == CandidateKeys(cs)[1..];
    PresentLookupStep(cs, cs[i].key);
    if i == 0 {
      PresentLookupAbsent(rest, cs[0].key);
    } else {
      PresentLookup(rest, i - 1);
    }
  }

  /** A key no candidate has is absent from the body. */
  lemma {:induction false} PresentLookupAbsent(cs: seq<Candidate>, key: string)
    requires key !in CandidateKeys(cs)
    ensures Lookup(Present(cs), key) == None
    decreases |cs|
  {
    if cs != [] {
      assert CandidateKeys(cs[1..]) == CandidateKeys(cs)[1..];
      PresentLookupAbsent(cs[1..], key);
      PresentLookupStep(cs, key);
    }
  }

  /** The body's keys follow the candidate order. */
  lemma {:induction false} PresentKeysInOrder(cs: seq<Candidate>)
    ensures IsSubsequence(Keys(Present(cs)), CandidateKeys(cs))
    decreases |cs|
  {
    if cs != [] {
      PresentKeysInOrder(cs[1..]);
      assert CandidateKeys(cs[1..]) == CandidateKeys(cs)[1..];
      var rest := Present(cs[1..]);
      if cs[0].value.Some? {
        var body := Present(cs);
        assert body == [Entry(cs[0].key, cs[0].value.value)] + rest;
        assert Keys(body)[1..] == Keys(rest);
      } else {
        assert Present(cs) == rest;
        assert CandidateKeys(cs) == [cs[0].key] + CandidateKeys(cs[1..]);
        SubsequenceCons(Keys(rest), cs[0].key, CandidateKeys(cs[1..]));
      }
    }
  }

  /** Putting an element in front of `b` keeps `a` a subsequence of it. */
  lemma {:induction false} SubsequenceCons(a: seq<string>, x: string, b: seq<string>)
    requires IsSubsequence(a, b)
    ensures IsSubsequence(a, [x] + b)
    decreases |a| + |b|, 1
  {
    assert ([x] + b)[1..] == b;
    if a != [] && a[0] == x {
      SubsequenceTail(a, b);
    }
  }

  /** A subsequence stays one after its first element is dropped. */
  lemma {:induction false} SubsequenceTail(a: seq<string>, b: seq<string>)
    requires a != [] && IsSubsequence(a, b)
    ensures IsSubsequence(a[1..], b)
    decreases |a| + |b|, 0
  {
    assert b != [];
    assert b == [b[0]] + b[1..];
    if a[0] == b[0] {
      SubsequenceCons(a[1..], b[0], b[1..]);
    } else {
      SubsequenceTail(a, b[1..]);
      SubsequenceCons(a[1..], b[0], b[1..]);
    }
  }

  /** Candidates that are all appended appear in full, in order. */
  lemma {:induction false} PresentAllAppended(cs: seq<Candidate>)
    requires forall i :: 0 <= i < |cs| ==> cs[i].value.Some?
    ensures |Present(cs)| == |cs|
    ensures forall i :: 0 <= i < |cs| ==> Present(cs)[i] == Entry(cs[i].key, cs[i].value.value)
    decreases |cs|
  {
    if cs != [] {
      PresentAllAppended(cs[1..]);
    }
  }

  /** An appended last candidate is the body's last entry. */
  lemma PresentLast(cs: seq<Candidate>)
    requires cs != [] && cs[|cs| - 1].value.Some?
    ensures var body := Present(cs);
      body != [] && body[|body| - 1] == Entry(cs[|cs| - 1].key, cs[|cs| - 1].value.value)
  {
    var n := |cs| - 1;
    assert cs == cs[..n] + [cs[n]];
    PresentAppend(cs[..n], [cs[n]]);
  }

  /** Each candidate adds one entry for its key when it is appended. */
  lemma {:induction false} PresentCount(cs: seq<Candidate>, key: string)
    requires forall i :: 0 <= i < |cs| ==> cs[i].key == key && cs[i].value.Some?
    ensures Count(Present(cs), key) == |cs|
    decreases |cs|
  {
    if cs != [] {
      PresentCount(cs[1..], key);
    }
  }

  /** Entries under other keys do not change a count. */
  lemma {:induction false} CountAppend(a: seq<Entry>, b: seq<Entry>, key: string)
    ensures Count(a + b, key) == Count(a, key) + Count(b, key)
    decreases |a|
  {
    if a == [] {
      assert a + b == b;
    } else {
      CountAppend(a[1..], b, key);
      assert (a + b)[0] == a[0];
      assert (a + b)[1..] == a[1..] + b;
    }
  }

  /** A body with no entry under `key` counts zero of it. */
  lemma {:induction false} CountAbsent(body: seq<Entry>, key: string)
    requires key !in Keys(body)
    ensures Count(body, key) == 0
    decreases |body|
  {
    if body != [] {
      assert Keys(body[1..]) == Keys(body)[1..];
      CountAbsent(body[1..], key);
    }
  }
}
