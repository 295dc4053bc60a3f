/**
  The header list of the WHATWG Fetch Standard (section 2.2.2, "Headers"), as
  far as the proxy uses it: a list of (name, value) pairs in which names are
  compared byte-case-insensitively, with the "append" and "set" operations and
  the `Headers` object that wraps one list and changes it in place.
 */
module FetchHeaders {
  import opened Wrappers

  type Header = (string, string)

  /** ASCII lower-casing of one character ("byte-lowercase"). */
  function LowerChar(c: char): (r: char)
    ensures 'A' <= c <= 'Z' ==> 'a' <= r <= 'z' && r as int - c as int == 32
    ensures !('A' <= c <= 'Z') ==> r == c
  {
    if 'A' <= c <= 'Z' then (c as int + 32) as char else c
  }

  /** ASCII lower-casing of a name, character by character. */
  function Lower(s: string): (r: string)
    ensures |r| == |s|
  {
    seq(|s|, i requires 0 <= i < |s| => LowerChar(s[i]))
  }

  /** Header names match when they agree after lower-casing. */
  predicate SameName(a: string, b: string) {
    Lower(a) == Lower(b)
  }

  /** A name that lower-casing leaves as it is. */
  predicate IsLowerName(n: string) {
    Lower(n) == n
  }

  /** Every name of the list is already lower-case. */
  predicate AllLowerNames(list: seq<Header>) {
    forall i :: 0 <= i < |list| ==> IsLowerName(list[i].0)
  }

  /** The list "contains" `name` in the sense of the Fetch Standard. */
  predicate Contains(list: seq<Header>, name: string) {
    exists i :: 0 <= i < |list| && SameName(list[i].0, name)
  }

  /** The values stored under `name`, case-insensitively, in list order. */
  function Values(list: seq<Header>, name: string): seq<string> {
    if list == [] then []
    else (if SameName(list[0].0, name) then [list[0].1] else []) + Values(list[1..], name)
  }

  /** Index of the first header named `name`, if there is one. */
  function FindName(list: seq<Header>, name: string): (r: Option<nat>)
    ensures r.Some? ==> r.value < |list|
  {
    if list == [] then None
    else if SameName(list[0].0, name) then Some(0)
    else
      match FindName(list[1..], name)
      case None => None
      case Some(k) => Some(k + 1)
  }

  /** `FindName` gives the first matching index, and None exactly when no header matches. */
  lemma {:induction false} FindNameIsFirst(list: seq<Header>, name: string)
    ensures FindName(list, name).Some? ==> SameName(list[FindName(list, name).value].0, name)
    ensures FindName(list, name).Some? ==> forall j :: 0 <= j < FindName(list, name).value ==> !SameName(list[j].0, name)
    ensures FindName(list, name).None? <==> !Contains(list, name)
  {
    if list != [] && !SameName(list[0].0, name) {
      FindNameIsFirst(list[1..], name);
      assert forall i :: 1 <= i < |list| ==> list[i] == list[1..][i - 1];
      if Contains(list, name) {
        var i :| 0 <= i < |list| && SameName(list[i].0, name);
        assert SameName(list[1..][i - 1].0, name);
      }
    }
  }

  /** The list without any header named `name`. */
  function RemoveName(list: seq<Header>, name: string): seq<Header> {
    if list == [] then []
    else (if SameName(list[0].0, name) then [] else [list[0]]) + RemoveName(list[1..], name)
  }

  /**
    "Append" of the Fetch Standard: when the list already holds the name, the
    new pair reuses the casing of the first such header's name.
   */
  function AppendHeader(list: seq<Header>, name: string, value: string): seq<Header> {
    match FindName(list, name)
    case Some(i) => list + [(list[i].0, value)]
    case None => list + [(name, value)]
  }

  /**
    "Set" of the Fetch Standard: when the list holds the name, the first such
    header gets the new value and the others are removed; otherwise the pair
    is appended.
   */
  function SetHeader(list: seq<Header>, name: string, value: string): seq<Header> {
    match FindName(list, name)
    case Some(i) => list[..i] + [(list[i].0, value)] + RemoveName(list[i + 1..], name)
    case None => list + [(name, value)]
  }

  /** Appending each header of `hs`, in order, to `list`. */
  function AppendAll(list: seq<Header>, hs: seq<Header>): seq<Header> {
    if hs == [] then list
    else
      var last := hs[|hs| - 1];
      AppendHeader(AppendAll(list, hs[..|hs| - 1]), last.0, last.1)
  }

  /** Setting each header of `hs`, in order, on `list`. */
  function SetAll(list: seq<Header>, hs: seq<Header>): seq<Header> {
    if hs == [] then list
    else
      var last := hs[|hs| - 1];
      SetHeader(SetAll(list, hs[..|hs| - 1]), last.0, last.1)
  }

  /** The value of the last header of `hs` named `name`, if any. */
  function LastValue(hs: seq<Header>, name: string): Option<string> {
    if hs == [] then None
    else if SameName(hs[|hs| - 1].0, name) then Some(hs[|hs| - 1].1)
    else LastValue(hs[..|hs| - 1], name)
  }

  // ---------------------------------------------------------------------
  // Header values as a `Headers` object takes them (Fetch Standard,
  // section 5.1, the `Headers` class: "normalize" the value as section 2.2.2
  // defines it, then "validate" the pair)
  // ---------------------------------------------------------------------

  /** HTTP whitespace: tab, line feed, carriage return and space. */
  predicate IsHttpWhitespace(c: char) {
    c == '\t' || c == '\n' || c == '\r' || c == ' '
  }

  /** Number of HTTP whitespace characters that start `v`. */
  function LeadingWhitespace(v: string): (n: nat)
    ensures n <= |v|
    ensures forall k :: 0 <= k < n ==> IsHttpWhitespace(v[k])
    ensures n < |v| ==> !IsHttpWhitespace(v[n])
  {
    if v != [] && IsHttpWhitespace(v[0]) then 1 + LeadingWhitespace(v[1..]) else 0
  }

  /** Number of HTTP whitespace characters that end `v`. */
  function TrailingWhitespace(v: string): (n: nat)
    ensures n <= |v|
    ensures forall k :: |v| - n <= k < |v| ==> IsHttpWhitespace(v[k])
    ensures n < |v| ==> !IsHttpWhitespace(v[|v| - n - 1])
  {
    if v != [] && IsHttpWhitespace(v[|v| - 1]) then 1 + TrailingWhitespace(v[..|v| - 1]) else 0
  }

  /** "Normalize" a header value: strip leading and trailing HTTP whitespace. */
  function Normalize(v: string): string {
    var i := LeadingWhitespace(v);
    if i == |v| then "" else v[i..|v| - TrailingWhitespace(v)]
  }

  /**
    A value the `Headers` object accepts: every character fits in one byte
    (the WebIDL ByteString conversion throws otherwise), and the normalised
    value holds no NUL, CR or LF (a "header value" of the Fetch Standard).
   */
  predicate ValidValue(v: string) {
    && (forall k :: 0 <= k < |v| ==> v[k] as int <= 0xFF)
    && var n := Normalize(v);
       forall k :: 0 <= k < |n| ==> n[k] != '\0' && n[k] != '\n' && n[k] != '\r'
  }

  /** A value as a `Headers` object stores it: normalised and valid. */
  predicate StoredValue(v: string) {
    Normalize(v) == v && ValidValue(v)
  }

  /** A header list that a `Headers` object holds, as `forEach` visits it. */
  type HeaderList = list: seq<Header> | forall i :: 0 <= i < |list| ==> StoredValue(list[i].1)


  /**
    Normalising keeps the middle of the value, from its first to its last
    character that is not HTTP whitespace, and drops only whitespace (the
    leading part by `LeadingWhitespace`'s own contract).
   */
  lemma NormalizeTrims(v: string)
    ensures LeadingWhitespace(v) + |Normalize(v)| <= |v|
    ensures Normalize(v) == v[LeadingWhitespace(v)..LeadingWhitespace(v) + |Normalize(v)|]
    ensures forall k :: LeadingWhitespace(v) + |Normalize(v)| <= k < |v| ==> IsHttpWhitespace(v[k])
    ensures Normalize(v) != "" ==> !IsHttpWhitespace(Normalize(v)[0]) && !IsHttpWhitespace(Normalize(v)[|Normalize(v)| - 1])
  {
    var i := LeadingWhitespace(v);
    if i < |v| {
      var t := TrailingWhitespace(v);
      assert !IsHttpWhitespace(v[i]);
      assert i < |v| - t;
      var r := v[i..|v| - t];
      assert Normalize(v) == r;
      assert r[0] == v[i] && r[|r| - 1] == v[|v| - t - 1];
      assert i + |r| == |v| - t;
    } else {
      assert Normalize(v) == "";
    }
  }

  /** Normalising gives the empty string exactly for an all-whitespace value. */
  lemma NormalizeEmptyIffBlank(v: string)
    ensures Normalize(v) == "" <==> forall k :: 0 <= k < |v| ==> IsHttpWhitespace(v[k])
  {
    var i := LeadingWhitespace(v);
    if i < |v| {
      assert !IsHttpWhitespace(v[i]);
      NormalizeTrims(v);
      assert Normalize(v)[0] == v[i];
    }
  }

  /** A value is left as it is exactly when it neither starts nor ends with HTTP whitespace. */
  lemma NormalizeFixed(v: string)
    ensures Normalize(v) == v <==> v == "" || (!IsHttpWhitespace(v[0]) && !IsHttpWhitespace(v[|v| - 1]))
  {
    NormalizeTrims(v);
    if v != [] && !IsHttpWhitespace(v[0]) && !IsHttpWhitespace(v[|v| - 1]) {
      assert LeadingWhitespace(v) == 0;
      assert TrailingWhitespace(v) == 0;
    }
  }

  /** Normalising twice is normalising once. */
  lemma NormalizeIdempotent(v: string)
    ensures Normalize(Normalize(v)) == Normalize(v)
  {
    NormalizeTrims(v);
    NormalizeFixed(Normalize(v));
  }

  /** A printable ASCII value that does not start or end with a space is stored unchanged. */
  lemma PrintableStored(v: string)
    requires forall k :: 0 <= k < |v| ==> ' ' <= v[k] <= '~'
    requires v == "" || (v[0] != ' ' && v[|v| - 1] != ' ')
    ensures StoredValue(v)
  {
    NormalizeFixed(v);
  }

  /**
    A value with a NUL, or with a character that does not fit in a byte,
    anywhere in it is rejected: neither is HTTP whitespace, so normalising
    keeps it.
   */
  lemma NulOrWideCharInvalid(v: string, k: int)
    requires 0 <= k < |v|
    requires v[k] == '\0' || v[k] as int > 0xFF
    ensures !ValidValue(v)
  {
    NormalizeTrims(v);
    var r := Normalize(v);
    var i := LeadingWhitespace(v);
    if v[k] == '\0' {
      assert i <= k < i + |r|;
      assert r[k - i] == '\0';
    }
  }

  // ---------------------------------------------------------------------
  // Properties of the header-list operations
  // ---------------------------------------------------------------------

  lemma {:induction false} ValuesConcat(a: seq<Header>, b: seq<Header>, name: string)
    ensures Values(a + b, name) == Values(a, name) + Values(b, name)
  {
    if a == [] {
      assert a + b == b;
    } else {
      assert (a + b)[1..] == a[1..] + b;
      ValuesConcat(a[1..], b, name);
    }
  }

  /** No value is stored under `name` exactly when no header has that name. */
  lemma {:induction false} ValuesEmptyIffAbsent(list: seq<Header>, name: string)
    ensures Values(list, name) == [] <==> !Contains(list, name)
  {
    if list != [] {
      ValuesEmptyIffAbsent(list[1..], name);
      if Contains(list[1..], name) {
        var i :| 0 <= i < |list[1..]| && SameName(list[1..][i].0, name);
        assert list[i + 1] == list[1..][i];
      }
      if Contains(list, name) && !SameName(list[0].0, name) {
        var i :| 0 <= i < |list| && SameName(list[i].0, name);
        assert list[1..][i - 1] == list[i];
      }
    }
  }

  lemma {:induction false} RemoveNameSnoc(list: seq<Header>, h: Header, name: string)
    ensures RemoveName(list + [h], name)
         == RemoveName(list, name) + (if SameName(h.0, name) then [] else [h])
  {
    var tail := if SameName(h.0, name) then [] else [h];
    if list == [] {
      assert list + [h] == [h];
      assert RemoveName([h], name) == tail + RemoveName([], name);
    } else {
      var first := if SameName(list[0].0, name) then [] else [list[0]];
      assert (list + [h])[0] == list[0];
      assert (list + [h])[1..] == list[1..] + [h];
      calc {
        RemoveName(list + [h], name);
        first + RemoveName(list[1..] + [h], name);
        { RemoveNameSnoc(list[1..], h, name); }
        first + (RemoveName(list[1..], name) + tail);
        (first + RemoveName(list[1..], name)) + tail;
        RemoveName(list, name) + tail;
      }
    }
  }

  /** Appending one more header to the folded list is one more `AppendHeader`. */
  lemma AppendAllSnoc(list: seq<Header>, hs: seq<Header>, h: Header)
    ensures AppendAll(list, hs + [h]) == AppendHeader(AppendAll(list, hs), h.0, h.1)
  {
    assert (hs + [h])[..|hs|] == hs;
  }

  /** Removing `name` empties its values and leaves every other name's values. */
  lemma {:induction false} RemoveNameValues(list: seq<Header>, name: string, m: string)
    ensures Values(RemoveName(list, name), m) == if SameName(m, name) then [] else Values(list, m)
  {
    if list != [] {
      RemoveNameValues(list[1..], name, m);
      ValuesConcat(if SameName(list[0].0, name) then [] else [list[0]], RemoveName(list[1..], name), m);
    }
  }

  /** Appending adds `value` at the end of the values of `name` and nothing else. */
  lemma AppendHeaderValues(list: seq<Header>, name: string, value: string, m: string)
    ensures |AppendHeader(list, name, value)| == |list| + 1
    ensures AppendHeader(list, name, value)[..|list|] == list
    ensures SameName(AppendHeader(list, name, value)[|list|].0, name)
    ensures Values(AppendHeader(list, name, value), m)
         == Values(list, m) + (if SameName(m, name) then [value] else [])
  {
    FindNameIsFirst(list, name);
    var r := AppendHeader(list, name, value);
    assert r == list + [r[|list|]];
    ValuesConcat(list, [r[|list|]], m);
  }

  lemma ValuesSingleton(h: Header, m: string)
    ensures Values([h], m) == if SameName(h.0, m) then [h.1] else []
  {
    assert [h][1..] == [];
  }

  /** "Set" of a name the list lacks appends it: the name holds exactly `value`. */
  lemma SetHeaderAbsentValues(list: seq<Header>, name: string, value: string, m: string)
    requires FindName(list, name).None?
    ensures Values(SetHeader(list, name, value), m)
         == if SameName(m, name) then [value] else Values(list, m)
  {
    FindNameIsFirst(list, name);
    ValuesConcat(list, [(name, value)], m);
    ValuesSingleton((name, value), m);
    if SameName(m, name) {
      assert !Contains(list, m);
      ValuesEmptyIffAbsent(list, m);
    }
  }

  /** "Set" of a name the list holds at `i` first: the name holds exactly `value`. */
  lemma SetHeaderPresentValues(list: seq<Header>, name: string, value: string, m: string, i: nat)
    requires FindName(list, name) == Some(i)
    ensures Values(SetHeader(list, name, value), m)
         == if SameName(m, name) then [value] else Values(list, m)
  {
    FindNameIsFirst(list, name);
    var pre, post := list[..i], list[i + 1..];
    var h, h' := list[i], (list[i].0, value);
    assert SetHeader(list, name, value) == pre + [h'] + RemoveName(post, name);
    assert list == pre + [h] + post;
    ValuesConcat(pre + [h'], RemoveName(post, name), m);
    ValuesConcat(pre, [h'], m);
    ValuesConcat(pre + [h], post, m);
    ValuesConcat(pre, [h], m);
    ValuesSingleton(h, m);
    ValuesSingleton(h', m);
    RemoveNameValues(post, name, m);
    if SameName(m, name) {
      assert !Contains(pre, m);
      ValuesEmptyIffAbsent(pre, m);
    }
  }

  /** After "set", `name` holds exactly `value`; every other name is untouched. */
  lemma SetHeaderValues(list: seq<Header>, name: string, value: string, m: string)
    ensures Values(SetHeader(list, name, value), m)
         == if SameName(m, name) then [value] else Values(list, m)
  {
    match FindName(list, name)
    case None => SetHeaderAbsentValues(list, name, value, m);
    case Some(i) => SetHeaderPresentValues(list, name, value, m, i);
  }

  /** Appending a whole list adds its values after the existing ones. */
  lemma {:induction false} AppendAllValues(list: seq<Header>, hs: seq<Header>, m: string)
    ensures Values(AppendAll(list, hs), m) == Values(list, m) + Values(hs, m)
  {
    if hs != [] {
      var init, last := hs[..|hs| - 1], hs[|hs| - 1];
      AppendAllValues(list, init, m);
      AppendHeaderValues(AppendAll(list, init), last.0, last.1, m);
      assert hs == init + [last];
      ValuesConcat(init, [last], m);
    }
  }

  /**
    When every name is already lower-case, as the names a `Headers` object
    iterates over are, appending one by one rebuilds exactly the same list.
   */
  lemma {:induction false} AppendAllLowerNames(list: seq<Header>, hs: seq<Header>)
    requires AllLowerNames(list) && AllLowerNames(hs)
    ensures AppendAll(list, hs) == list + hs
  {
    if hs != [] {
      var init, last := hs[..|hs| - 1], hs[|hs| - 1];
      AppendAllLowerNames(list, init);
      var acc := list + init;
      assert AllLowerNames(acc) by {
        forall i | 0 <= i < |acc| ensures IsLowerName(acc[i].0) {
          if i >= |list| {
            assert acc[i] == init[i - |list|] == hs[i - |list|];
          }
        }
      }
      FindNameIsFirst(acc, last.0);
      match FindName(acc, last.0)
      case Some(i) =>
        assert acc[i].0 == Lower(acc[i].0) == Lower(last.0) == last.0;
      case None =>
      assert acc + [last] == list + hs;
    }
  }

  /** Filtering a lower-case list keeps it lower-case. */
  lemma {:induction false} RemoveNameKeepsLowerNames(list: seq<Header>, name: string)
    requires AllLowerNames(list)
    ensures AllLowerNames(RemoveName(list, name))
  {
    if list != [] {
      assert AllLowerNames(list[1..]) by {
        forall i | 0 <= i < |list[1..]| ensures IsLowerName(list[1..][i].0) {
          assert list[1..][i] == list[i + 1];
        }
      }
      RemoveNameKeepsLowerNames(list[1..], name);
    }
  }

  /** `LastValue` is the last of the values stored under the name. */
  lemma {:induction false} LastValueIsLastOfValues(hs: seq<Header>, m: string)
    ensures LastValue(hs, m).None? <==> Values(hs, m) == []
    ensures LastValue(hs, m).Some? ==> LastValue(hs, m).value == Values(hs, m)[|Values(hs, m)| - 1]
  {
    if hs != [] {
      var init, last := hs[..|hs| - 1], hs[|hs| - 1];
      LastValueIsLastOfValues(init, m);
      assert hs == init + [last];
      ValuesConcat(init, [last], m);
    }
  }

  /**
    Setting a whole list: every name it carries ends with exactly the last
    value given for it; every other name keeps the values it had.
   */
  lemma {:induction false} SetAllValues(list: seq<Header>, hs: seq<Header>, m: string)
    ensures Values(SetAll(list, hs), m)
         == match LastValue(hs, m)
            case Some(v) => [v]
            case None => Values(list, m)
  {
    if hs != [] {
      var init, last := hs[..|hs| - 1], hs[|hs| - 1];
      SetAllValues(list, init, m);
      SetHeaderValues(SetAll(list, init), last.0, last.1, m);
    }
  }

  // ---------------------------------------------------------------------
  // The Headers object
  // ---------------------------------------------------------------------

  /** Scans the list for the first header named `name`; `|list|` when there is none. */
  method IndexOfName(list: seq<Header>, name: string) returns (i: nat)
    ensures i == FindName(list, name).GetOr(|list|)
  {
    i := 0;
    while i < |list| && !SameName(list[i].0, name)
      invariant i <= |list|
      invariant forall j :: 0 <= j < i ==> !SameName(list[j].0, name)
    {
      i := i + 1;
    }
    FindNameIsFirst(list, name);
  }

  /** A `Headers` object: one header list that its methods change in place. */
  class Headers {
    var list: seq<Header>

    /** `new Headers()`: an empty list. */
    constructor ()
      ensures list == []
    {
      list := [];
    }

    /** A header list a response is created with. */
    constructor Of(init: seq<Header>)
      ensures list == init
    {
      list := init;
    }

    /** `headers.append(name, value)`. */
    method Append(name: string, value: string)
      modifies this
      ensures list == AppendHeader(old(list), name, value)
    {
      var l := list;
      var i := IndexOfName(l, name);
      var stored := if i < |l| then l[i].0 else name;
      list := l + [(stored, value)];
    }

    /**
      `headers.set(name, value)`: the value is normalised and then checked.
      An invalid value throws a TypeError (`ok` is false) before the list
      changes; otherwise the header list is "set" with the normalised value.
     */
    method Set(name: string, value: string) returns (ok: bool)
      modifies this
      ensures ok == ValidValue(value)
      ensures list == if ok then SetHeader(old(list), name, Normalize(value)) else old(list)
    {
      if !ValidValue(value) {
        return false;
      }
      ok := true;
      SetNormalized(name, Normalize(value));
    }

    /** "Set" of a value that has passed the checks. */
    method SetNormalized(name: string, value: string)
      modifies this
      ensures list == SetHeader(old(list), name, value)
    {
      var l := list;
      var i := IndexOfName(l, name);
      if i == |l| {
        list := l + [(name, value)];
        return;
      }
      ghost var kept := l[..i] + [(l[i].0, value)];
      ghost var rest := l[i + 1..];
      var out := l[..i] + [(l[i].0, value)];
      var j := i + 1;
      while j < |l|
        invariant i + 1 <= j <= |l|
        invariant out == kept + RemoveName(rest[..j - i - 1], name)
      {
        assert rest[..j - i] == rest[..j - i - 1] + [l[j]];
        RemoveNameSnoc(rest[..j - i - 1], l[j], name);
        if !SameName(l[j].0, name) {
          out := out + [l[j]];
        }
        j := j + 1;
      }
      assert rest[..j - i - 1] == rest;
      assert FindName(l, name) == Some(i);
      list := out;
    }
  }
}
