/** The inventory service: reading the item list out of whatever envelope the
    proxy wraps it in, reading each record's fields under any of several
    spellings of their names, and the error message a failed request turns
    into. The request itself is left to the caller, who passes what came
    back. */
module InventoryService {
  import opened Wrappers
  import opened JsText
  import opened Json
  import opened Api
  import opened Types

  // ---------------------------------------------------------------------
  // findFirstArray
  // ---------------------------------------------------------------------

  /** A non-empty array whose first element has `typeof` "object" (null
      included): what `findFirstArray` takes for a list of records. */
  predicate IsRecordArray(v: Json) {
    v.JArr? && |v.elems| > 0 && TypeofObject(v.elems[0])
  }

  /** `findFirstArray(obj)`: None for null; the value itself when it is a
      record array; otherwise, for an array or object, the first record array
      found under its children in key order. */
  function FirstArray(v: Json): (r: Option<Json>)
    ensures r.Some? ==> IsRecordArray(r.value)
    ensures IsRecordArray(v) ==> r == Some(v)
    ensures !TypeofObject(v) ==> r.None?
    decreases v, 1
  {
    if v.JNull? then None
    else if IsRecordArray(v) then Some(v)
    else if TypeofObject(v) then FirstArrayFrom(v, 0)
    else None
  }

  /** The first record array under the children of `v` from the `i`-th on. */
  function FirstArrayFrom(v: Json, i: nat): (r: Option<Json>)
    requires i <= Count(v)
    ensures r.Some? ==> IsRecordArray(r.value)
    decreases v, 0, Count(v) - i
  {
    if i == Count(v) then None
    else
      var found :=
        if v.JArr? then FirstArray(v.elems[i])
        else
          assert v.fields[i] in v.fields;
          FirstArray(v.fields[i].value);
      if found.Some? then found else FirstArrayFrom(v, i + 1)
  }

  /** The search as the service runs it: a loop over the keys, each child
      searched in turn, the first hit returned. */
  method FindFirstArray(v: Json) returns (r: Option<Json>)
    ensures r == FirstArray(v)
    decreases v
  {
    if v.JNull? {
      return None;
    }
    if IsRecordArray(v) {
      return Some(v);
    }
    if TypeofObject(v) {
      var i := 0;
      while i < Count(v)
        invariant 0 <= i <= Count(v)
        invariant FirstArrayFrom(v, i) == FirstArray(v)
      {
        var found;
        if v.JArr? {
          found := FindFirstArray(v.elems[i]);
        } else {
          assert v.fields[i] in v.fields;
          found := FindFirstArray(v.fields[i].value);
        }
        if found.Some? {
          return found;
        }
        i := i + 1;
      }
    }
    return None;
  }

  /** A record array is found exactly when some node under `v` is one. */
  lemma {:induction false} FirstArrayComplete(v: Json)
    ensures FirstArray(v).Some? <==> SomeNode(v, IsRecordArray)
    decreases v, 1
  {
    if TypeofObject(v) && !IsRecordArray(v) {
      FirstArrayFromComplete(v, 0);
      var p := IsRecordArray;
      assert !p(v);
      assert SomeNode(v, p) <==> exists j :: 0 <= j < Count(v) && SomeNodeChild(v, j, p);
      if v.JNull? {
        assert Count(v) == 0;
      }
    } else if !TypeofObject(v) {
      assert Count(v) == 0;
      assert SomeNode(v, IsRecordArray) == IsRecordArray(v);
    }
  }

  lemma {:induction false} FirstArrayFromComplete(v: Json, i: nat)
    requires i <= Count(v)
    ensures FirstArrayFrom(v, i).Some? ==>
            exists j :: i <= j < Count(v) && SomeNodeChild(v, j, IsRecordArray)
    ensures (exists j :: i <= j < Count(v) && SomeNodeChild(v, j, IsRecordArray)) ==>
            FirstArrayFrom(v, i).Some?
    decreases v, 0, Count(v) - i
  {
    if i < Count(v) {
      var found: Option<Json>;
      if v.JArr? {
        FirstArrayComplete(v.elems[i]);
        found := FirstArray(v.elems[i]);
      } else {
        assert v.fields[i] in v.fields;
        FirstArrayComplete(v.fields[i].value);
        found := FirstArray(v.fields[i].value);
      }
      assert found.Some? <==> SomeNodeChild(v, i, IsRecordArray);
      FirstArrayFromComplete(v, i + 1);
      if found.None? {
        assert FirstArrayFrom(v, i) == FirstArrayFrom(v, i + 1);
        if FirstArrayFrom(v, i).None? {
          forall j | i <= j < Count(v)
            ensures !SomeNodeChild(v, j, IsRecordArray)
          {
          }
        } else {
          var j :| i + 1 <= j < Count(v) && SomeNodeChild(v, j, IsRecordArray);
        }
      }
    }
  }

  /** The node `a` itself. */
  function IsNode(a: Json): Json -> bool {
    x => x == a
  }

  /** What is found is a node of the tree under `v`, not something built. */
  lemma {:induction false} FirstArraySound(v: Json)
    ensures FirstArray(v).Some? ==> SomeNode(v, IsNode(FirstArray(v).value))
    decreases v, 1
  {
    if TypeofObject(v) && !IsRecordArray(v) && !v.JNull? {
      FirstArrayFromSound(v, 0);
      if FirstArray(v).Some? {
        var j :| 0 <= j < Count(v) && SomeNodeChild(v, j, IsNode(FirstArray(v).value));
      }
    } else if IsRecordArray(v) {
      assert IsNode(v)(v);
    }
  }

  lemma {:induction false} FirstArrayFromSound(v: Json, i: nat)
    requires i <= Count(v)
    ensures FirstArrayFrom(v, i).Some? ==>
            exists j :: i <= j < Count(v) && SomeNodeChild(v, j, IsNode(FirstArrayFrom(v, i).value))
    decreases v, 0, Count(v) - i
  {
    if i < Count(v) {
      var found;
      if v.JArr? {
        found := FirstArray(v.elems[i]);
        FirstArraySound(v.elems[i]);
      } else {
        assert v.fields[i] in v.fields;
        found := FirstArray(v.fields[i].value);
        FirstArraySound(v.fields[i].value);
      }
      if found.Some? {
        assert SomeNodeChild(v, i, IsNode(found.value));
      } else {
        FirstArrayFromSound(v, i + 1);
      }
    }
  }

  /** Children are searched in key order: when child `j` is the first from
      the `i`-th on with a record array under it, the search from `i` gives
      what the search of child `j` gives. (When no such child exists the
      search gives None, by `FirstArrayFromComplete`.) */
  lemma {:induction false} FirstArrayFromFirstHit(v: Json, i: nat, j: nat)
    requires i <= j < Count(v)
    requires SomeNodeChild(v, j, IsRecordArray)
    requires forall k :: i <= k < j ==> !SomeNodeChild(v, k, IsRecordArray)
    ensures FirstArrayFrom(v, i) == FirstArray(Child(v, j))
    ensures FirstArrayFrom(v, i).Some?
    decreases j - i
  {
    assert v.JObj? ==> v.fields[i] in v.fields;
    FirstArrayComplete(Child(v, i));
    assert FirstArray(Child(v, i)).Some? <==> SomeNodeChild(v, i, IsRecordArray);
    if i < j {
      FirstArrayFromFirstHit(v, i + 1, j);
    }
  }

  /** An array of numbers is not a list of records, and nothing under it is
      either. */
  lemma NumbersAreNoRecords()
    ensures FirstArray(JObj([Field("a", JArr([JNum(1), JNum(2), JNum(3)]))])) == None
  {
    var a := JArr([JNum(1), JNum(2), JNum(3)]);
    assert FirstArrayFrom(a, 3).None?;
    assert FirstArrayFrom(a, 0).None?;
    assert FirstArrayFrom(JObj([Field("a", a)]), 1).None?;
  }

  // ---------------------------------------------------------------------
  // getNormalizedValue
  // ---------------------------------------------------------------------

  /** `toLowerCase` on one character, for the ASCII letters. */
  function LowerAscii(c: char): (d: char)
    ensures !('A' <= d <= 'Z')
    ensures !('A' <= c <= 'Z') ==> d == c
  {
    if 'A' <= c <= 'Z' then (c as int + 32) as char else c
  }

  /** `toLowerCase` on ASCII letters. */
  function ToLowerAscii(s: string): string {
    if |s| == 0 then [] else [LowerAscii(s[0])] + ToLowerAscii(s[1..])
  }

  /** `s.replace(/\s+/g, "")`: the characters of `s` that are not white
      space, in order. */
  function RemoveSpaces(s: string): string {
    if |s| == 0 then []
    else if IsJsSpace(s[0]) then RemoveSpaces(s[1..])
    else [s[0]] + RemoveSpaces(s[1..])
  }

  /** The key normalisation: trim, lower-case, drop every white-space
      character. */
  function NormalizeKey(k: string): (n: string)
    ensures forall i :: 0 <= i < |n| ==> !IsJsSpace(n[i]) && !('A' <= n[i] <= 'Z')
  {
    ToLowerAsciiLowers(Trim(k));
    RemoveSpacesShape(ToLowerAscii(Trim(k)));
    RemoveSpaces(ToLowerAscii(Trim(k)))
  }

  /** No upper-case ASCII letter survives `ToLowerAscii`. */
  lemma {:induction false} ToLowerAsciiLowers(s: string)
    ensures forall i :: 0 <= i < |ToLowerAscii(s)| ==> !('A' <= ToLowerAscii(s)[i] <= 'Z')
    ensures (forall i :: 0 <= i < |s| ==> !('A' <= s[i] <= 'Z')) ==> ToLowerAscii(s) == s
  {
    if |s| > 0 {
      ToLowerAsciiLowers(s[1..]);
      var r := ToLowerAscii(s);
      assert r == [LowerAscii(s[0])] + ToLowerAscii(s[1..]);
      forall i | 0 <= i < |r|
        ensures !('A' <= r[i] <= 'Z')
      {
        if i > 0 {
          assert r[i] == ToLowerAscii(s[1..])[i - 1];
        }
      }
      if forall i :: 0 <= i < |s| ==> !('A' <= s[i] <= 'Z') {
        assert forall i :: 0 <= i < |s[1..]| ==> !('A' <= s[1..][i] <= 'Z') by {
          forall i | 0 <= i < |s[1..]|
            ensures !('A' <= s[1..][i] <= 'Z')
          {
            assert s[1..][i] == s[i + 1];
          }
        }
        assert [s[0]] + s[1..] == s;
      }
    }
  }

  /** `RemoveSpaces` keeps only characters of its input that are not white
      space, and keeps a string with no white space as it is. */
  lemma {:induction false} RemoveSpacesShape(s: string)
    ensures forall i :: 0 <= i < |RemoveSpaces(s)| ==> !IsJsSpace(RemoveSpaces(s)[i]) && RemoveSpaces(s)[i] in s
    ensures (forall i :: 0 <= i < |s| ==> !IsJsSpace(s[i])) ==> RemoveSpaces(s) == s
  {
    if |s| > 0 {
      RemoveSpacesShape(s[1..]);
      var rest := RemoveSpaces(s[1..]);
      var r := RemoveSpaces(s);
      forall i | 0 <= i < |r|
        ensures !IsJsSpace(r[i]) && r[i] in s
      {
        if IsJsSpace(s[0]) {
          assert r[i] == rest[i];
        } else if i > 0 {
          assert r[i] == rest[i - 1];
        }
      }
      if forall i :: 0 <= i < |s| ==> !IsJsSpace(s[i]) {
        assert forall i :: 0 <= i < |s[1..]| ==> !IsJsSpace(s[1..][i]) by {
          forall i | 0 <= i < |s[1..]|
            ensures !IsJsSpace(s[1..][i])
          {
            assert s[1..][i] == s[i + 1];
          }
        }
        assert [s[0]] + s[1..] == s;
      }
    }
  }

  /** A normalised key has no white space and no upper-case ASCII letter. */
  lemma NormalizeKeyShape(k: string)
    ensures forall i :: 0 <= i < |NormalizeKey(k)| ==> !IsJsSpace(NormalizeKey(k)[i]) && !('A' <= NormalizeKey(k)[i] <= 'Z')
  {
    var lowered := ToLowerAscii(Trim(k));
    ToLowerAsciiLowers(Trim(k));
    RemoveSpacesShape(lowered);
  }

  /** Normalising twice is normalising once. */
  lemma NormalizeKeyIdempotent(k: string)
    ensures NormalizeKey(NormalizeKey(k)) == NormalizeKey(k)
  {
    var n := NormalizeKey(k);
    NormalizeKeyShape(k);
    if |n| > 0 {
      TrimStartNoSpace(n);
      assert TrimEnd(n) == n;
    }
    assert Trim(n) == n;
    ToLowerAsciiLowers(n);
    RemoveSpacesShape(n);
  }

  /** The value of the first candidate that is an own key of the item. */
  function ExactMatch(fs: seq<Field>, cs: seq<string>): Option<Json> {
    if |cs| == 0 then None
    else if Lookup(fs, cs[0]).Some? then Lookup(fs, cs[0])
    else ExactMatch(fs, cs[1..])
  }

  /** The entry the normalised map holds for `nk` after all keys have been
      written in order: the last key that normalises to `nk`. */
  function LastKeyWith(fs: seq<Field>, nk: string, norm: string -> string): (r: Option<string>)
    ensures r.Some? ==> norm(r.value) == nk
  {
    if |fs| == 0 then None
    else if norm(fs[|fs| - 1].key) == nk then Some(fs[|fs| - 1].key)
    else LastKeyWith(fs[..|fs| - 1], nk, norm)
  }

  /** The value under the first candidate whose normalised form has a
      (non-empty) key in the normalised map. */
  function NormalizedMatch(fs: seq<Field>, cs: seq<string>, norm: string -> string): Option<Json> {
    if |cs| == 0 then None
    else
      var k := LastKeyWith(fs, norm(cs[0]), norm);
      if k.Some? && k.value != "" then Lookup(fs, k.value)
      else NormalizedMatch(fs, cs[1..], norm)
  }

  /** `getNormalizedValue(item, candidates)`: None for a falsy item or a
      primitive; otherwise an exact key match over all candidates first, then
      the match on normalised names. */
  function NormalizedValue(item: Json, cs: seq<string>): (r: Option<Json>)
    ensures r.Some? ==> Truthy(item) && TypeofObject(item)
    ensures r.Some? ==> exists j :: 0 <= j < Count(item) && Child(item, j) == r.value
  {
    if !Truthy(item) || !TypeofObject(item) then None
    else
      var fs := OwnEntries(item);
      ExactMatchSound(fs, cs);
      NormalizedMatchSound(fs, cs, NormalizeKey);
      var r := if ExactMatch(fs, cs).Some? then ExactMatch(fs, cs) else NormalizedMatch(fs, cs, NormalizeKey);
      if r.Some? then
        var j :| 0 <= j < |fs| && fs[j].value == r.value;
        assert Child(item, j) == fs[j].value;
        r
      else r
  }

  /** `getNormalizedValue` as the service runs it: the exact-match loop over
      the candidates, then the loop filling the map from normalised name to
      key, then the loop over the normalised candidates. */
  method GetNormalizedValue(item: Json, cs: seq<string>) returns (r: Option<Json>)
    ensures r == NormalizedValue(item, cs)
  {
    if !Truthy(item) || !TypeofObject(item) {
      return None;
    }
    var fs := OwnEntries(item);
    r := FirstExactMatch(fs, cs);
    if r.None? {
      var normalized := NormalizedKeyMap(fs, NormalizeKey);
      r := FirstNormalizedMatch(fs, cs, NormalizeKey, normalized);
    }
  }

  method FirstExactMatch(fs: seq<Field>, cs: seq<string>) returns (r: Option<Json>)
    ensures r == ExactMatch(fs, cs)
  {
    var i := 0;
    while i < |cs|
      invariant 0 <= i <= |cs|
      invariant ExactMatch(fs, cs) == ExactMatch(fs, cs[i..])
    {
      assert cs[i..][1..] == cs[i + 1..];
      var hit := Lookup(fs, cs[i]);
      if hit.Some? {
        return hit;
      }
      i := i + 1;
    }
    return None;
  }

  /** The map from each normalised name to a key, every key written in key
      order over what was there. */
  method NormalizedKeyMap(fs: seq<Field>, norm: string -> string) returns (normalized: map<string, string>)
    ensures forall nk :: nk in normalized <==> LastKeyWith(fs, nk, norm).Some?
    ensures forall nk :: nk in normalized ==> normalized[nk] == LastKeyWith(fs, nk, norm).value
  {
    normalized := map[];
    var j := 0;
    while j < |fs|
      invariant 0 <= j <= |fs|
      invariant forall nk :: nk in normalized <==> LastKeyWith(fs[..j], nk, norm).Some?
      invariant forall nk :: nk in normalized ==> normalized[nk] == LastKeyWith(fs[..j], nk, norm).value
    {
      assert fs[..j + 1][..j] == fs[..j];
      normalized := normalized[norm(fs[j].key) := fs[j].key];
      j := j + 1;
    }
    assert fs[..|fs|] == fs;
  }

  method FirstNormalizedMatch(fs: seq<Field>, cs: seq<string>, norm: string -> string, normalized: map<string, string>) returns (r: Option<Json>)
    requires forall nk :: nk in normalized <==> LastKeyWith(fs, nk, norm).Some?
    requires forall nk :: nk in normalized ==> normalized[nk] == LastKeyWith(fs, nk, norm).value
    ensures r == NormalizedMatch(fs, cs, norm)
  {
    var i := 0;
    while i < |cs|
      invariant 0 <= i <= |cs|
      invariant NormalizedMatch(fs, cs, norm) == NormalizedMatch(fs, cs[i..], norm)
    {
      assert cs[i..][1..] == cs[i + 1..];
      var nk := norm(cs[i]);
      if nk in normalized && normalized[nk] != "" {
        return Lookup(fs, normalized[nk]);
      }
      i := i + 1;
    }
    return None;
  }

  /** The normalised map has no entry for a name exactly when no key has
      that normalised name. */
  lemma {:induction false} LastKeyAbsent(fs: seq<Field>, nk: string, norm: string -> string)
    ensures LastKeyWith(fs, nk, norm).None? <==> forall j :: 0 <= j < |fs| ==> norm(fs[j].key) != nk
  {
    if |fs| > 0 {
      var last := |fs| - 1;
      var init := fs[..last];
      LastKeyAbsent(init, nk, norm);
      assert forall j :: 0 <= j < last ==> init[j] == fs[j];
    }
  }

  /** The normalised map's entry is the last key in key order with that
      normalised name: when several keys differ only in case or spacing, the
      later one wins. The lemma names its position `j`. */
  lemma {:induction false} LastKeyWins(fs: seq<Field>, nk: string, norm: string -> string) returns (j: nat)
    requires LastKeyWith(fs, nk, norm).Some?
    ensures j < |fs| && fs[j].key == LastKeyWith(fs, nk, norm).value
    ensures forall j' :: j < j' < |fs| ==> norm(fs[j'].key) != nk
  {
    var last := |fs| - 1;
    if norm(fs[last].key) == nk {
      j := last;
    } else {
      var init := fs[..last];
      assert LastKeyWith(fs, nk, norm) == LastKeyWith(init, nk, norm);
      j := LastKeyWins(init, nk, norm);
      assert fs[j] == init[j];
      forall j' | j < j' < |fs|
        ensures norm(fs[j'].key) != nk
      {
        if j' < last {
          assert init[j'] == fs[j'];
        }
      }
    }
  }

  /** `Lookup` only returns the value of a field with that key. */
  lemma {:induction false} LookupSound(fs: seq<Field>, k: string)
    ensures Lookup(fs, k).Some? ==> exists j :: 0 <= j < |fs| && fs[j] == Field(k, Lookup(fs, k).value)
  {
    if |fs| > 0 && fs[0].key != k {
      LookupSound(fs[1..], k);
      if Lookup(fs, k).Some? {
        var j :| 0 <= j < |fs| - 1 && fs[1..][j] == Field(k, Lookup(fs, k).value);
        assert fs[j + 1] == fs[1..][j];
      }
    }
  }

  lemma {:induction false} ExactMatchSound(fs: seq<Field>, cs: seq<string>)
    ensures ExactMatch(fs, cs).Some? ==>
              exists j :: 0 <= j < |fs| && fs[j].value == ExactMatch(fs, cs).value && fs[j].key in cs
  {
    if |cs| > 0 {
      LookupSound(fs, cs[0]);
      ExactMatchSound(fs, cs[1..]);
      if Lookup(fs, cs[0]).None? && ExactMatch(fs, cs).Some? {
        var j :| 0 <= j < |fs| && fs[j].value == ExactMatch(fs, cs).value && fs[j].key in cs[1..];
        assert fs[j].key in cs;
      }
    }
  }

  lemma {:induction false} NormalizedMatchSound(fs: seq<Field>, cs: seq<string>, norm: string -> string)
    ensures NormalizedMatch(fs, cs, norm).Some? ==> exists j :: 0 <= j < |fs| && fs[j].value == NormalizedMatch(fs, cs, norm).value
  {
    if |cs| > 0 {
      var k := LastKeyWith(fs, norm(cs[0]), norm);
      if k.Some? && k.value != "" {
        LookupSound(fs, k.value);
      } else {
        NormalizedMatchSound(fs, cs[1..], norm);
      }
    }
  }

  /** Whatever is returned is the value of one of the item's own
      properties. */
  lemma NormalizedValueSound(item: Json, cs: seq<string>)
    ensures NormalizedValue(item, cs).Some? ==>
              exists j :: 0 <= j < Count(item) && Child(item, j) == NormalizedValue(item, cs).value
  {
    if Truthy(item) && TypeofObject(item) {
      var fs := OwnEntries(item);
      ExactMatchSound(fs, cs);
      NormalizedMatchSound(fs, cs, NormalizeKey);
      if NormalizedValue(item, cs).Some? {
        var j :| 0 <= j < |fs| && fs[j].value == NormalizedValue(item, cs).value;
        assert Child(item, j) == fs[j].value;
      }
    }
  }

  /** An exact key match beats a key that only matches once normalised,
      whichever candidate comes first: an item with a `name` field answers
      `["Item Name", "name"]` with it even when it also has `item name`. */
  lemma {:induction false} ExactMatchFirst(item: Json, cs: seq<string>, k: nat)
    requires Truthy(item) && item.JObj?
    requires k < |cs| && Lookup(item.fields, cs[k]).Some?
    requires forall c :: c in cs[..k] ==> Lookup(item.fields, c).None?
    ensures NormalizedValue(item, cs) == Lookup(item.fields, cs[k])
  {
    ExactMatchAt(item.fields, cs, k);
  }

  lemma {:induction false} ExactMatchAt(fs: seq<Field>, cs: seq<string>, k: nat)
    requires k < |cs| && Lookup(fs, cs[k]).Some?
    requires forall c :: c in cs[..k] ==> Lookup(fs, c).None?
    ensures ExactMatch(fs, cs) == Lookup(fs, cs[k])
  {
    if k > 0 {
      assert cs[0] in cs[..k];
      assert cs[1..][k - 1] == cs[k];
      assert forall c :: c in cs[1..][..k - 1] ==> c in cs[..k];
      ExactMatchAt(fs, cs[1..], k - 1);
    }
  }

  // ---------------------------------------------------------------------
  // extractItems
  // ---------------------------------------------------------------------

  /** `w` (lower case) occurs at position `i` of `k`, ignoring ASCII case. */
  predicate WordAt(k: string, i: nat, w: string) {
    i + |w| <= |k| && forall j :: 0 <= j < |w| ==> LowerAscii(k[i + j]) == w[j]
  }

  /** `item\s?<w>` at position `i`. */
  predicate ItemWordAt(k: string, i: nat, w: string) {
    WordAt(k, i, "item") &&
    (WordAt(k, i + 4, w) || (i + 4 < |k| && IsJsSpace(k[i + 4]) && WordAt(k, i + 5, w)))
  }

  /** One of the alternatives of the item-field pattern matches at `i`. */
  predicate ItemFieldAt(k: string, i: nat) {
    || ItemWordAt(k, i, "id") || ItemWordAt(k, i, "name") || ItemWordAt(k, i, "price")
    || WordAt(k, i, "quantity") || WordAt(k, i, "description") || WordAt(k, i, "expiry")
  }

  /** The key matches `/item\s?id|item\s?name|item\s?price|quantity|description|expiry/i`
      somewhere. */
  predicate IsItemFieldName(k: string) {
    exists i :: 0 <= i <= |k| && ItemFieldAt(k, i)
  }

  /** Some key of the object looks like an item field. */
  predicate HasItemFields(fs: seq<Field>) {
    exists j :: 0 <= j < |fs| && IsItemFieldName(fs[j].key)
  }

  /** The elements of an array-valued property, None for anything else. */
  function ArrayAt(o: Option<Json>): Option<seq<Json>> {
    if o.Some? && o.value.JArr? then Some(o.value.elems) else None
  }

  /** The item list read from what the proxy wrapped around the upstream
      body: None when the body gave nothing and the top-level checks run. */
  function FromUpstream(parsed: Json): Option<seq<Json>> {
    if parsed.JArr? then Some(parsed.elems)
    else if ArrayAt(Get(parsed, "items")).Some? then ArrayAt(Get(parsed, "items"))
    else if parsed.JObj? && HasItemFields(parsed.fields) then Some([parsed])
    else None
  }

  /** The top-level checks: the response itself, `items`, `data.items`,
      `data`, and last the `message` read as JSON. */
  function FromEnvelope(response: Json, parse: string -> Option<Json>): seq<Json> {
    if response.JArr? then response.elems
    else if ArrayAt(Get(response, "items")).Some? then ArrayAt(Get(response, "items")).value
    else if ArrayAt(GetOpt(Get(response, "data"), "items")).Some? then ArrayAt(GetOpt(Get(response, "data"), "items")).value
    else if ArrayAt(Get(response, "data")).Some? then ArrayAt(Get(response, "data")).value
    else if TruthyOpt(Get(response, "message")) then
      match ParseValue(Get(response, "message").value, parse)
      case None => []
      case Some(m) =>
        if m.JArr? then m.elems
        else if ArrayAt(Get(m, "items")).Some? then ArrayAt(Get(m, "items")).value
        else []
    else []
  }

  /** The upstream body as `extractItems` reads it: a string is parsed
      (None when it is not JSON), anything else is taken as it is. */
  function UpstreamValue(b: Json, parse: string -> Option<Json>): Option<Json> {
    if b.JStr? then parse(b.s) else Some(b)
  }

  /** The search reaches the top-level checks: there is no truthy upstream
      body, or it was read and is neither an array, nor holds an `items`
      array, nor is a record with an item-like key. */
  predicate ReachesTopLevel(response: Json, parse: string -> Option<Json>) {
    var b := Get(response, "upstreamBody");
    || !TruthyOpt(b)
    || (&& UpstreamValue(b.value, parse).Some?
        && var u := UpstreamValue(b.value, parse).value;
           && !u.JArr? && ArrayAt(Get(u, "items")).None?
           && !(u.JObj? && HasItemFields(u.fields)))
  }

  /** None of the four array places of the top level holds an array: the
      response itself, `items`, `data.items` and `data`. */
  predicate NoTopLevelArray(response: Json) {
    && !response.JArr?
    && ArrayAt(Get(response, "items")).None?
    && ArrayAt(GetOpt(Get(response, "data"), "items")).None?
    && ArrayAt(Get(response, "data")).None?
  }

  /** `extractItems(response)`. A truthy `upstreamBody` is read first (parsed
      when it is a string, and an unparsable string ends the search with no
      items); when it yields nothing the top-level checks run. */
  function ExtractItems(response: Json, parse: string -> Option<Json>): (r: seq<Json>)
    ensures response.JArr? ==> r == response.elems
    ensures !response.JArr? && !response.JObj? ==> r == []
    ensures var body := Get(response, "upstreamBody");
            body.Some? && body.value.JStr? && body.value.s != "" && parse(body.value.s).None? ==> r == []
    ensures var body := Get(response, "upstreamBody");
            TruthyOpt(body) && UpstreamValue(body.value, parse).Some? ==>
              var u := UpstreamValue(body.value, parse).value;
              && (u.JArr? ==> r == u.elems)
              && (!u.JArr? && ArrayAt(Get(u, "items")).Some? ==> r == ArrayAt(Get(u, "items")).value)
              && (!u.JArr? && ArrayAt(Get(u, "items")).None? && u.JObj? && HasItemFields(u.fields) ==> r == [u])
    ensures ReachesTopLevel(response, parse) ==>
              && (response.JArr? ==> r == response.elems)
              && (!response.JArr? && ArrayAt(Get(response, "items")).Some? ==>
                    r == ArrayAt(Get(response, "items")).value)
              && (!response.JArr? && ArrayAt(Get(response, "items")).None?
                  && ArrayAt(GetOpt(Get(response, "data"), "items")).Some? ==>
                    r == ArrayAt(GetOpt(Get(response, "data"), "items")).value)
              && (!response.JArr? && ArrayAt(Get(response, "items")).None?
                  && ArrayAt(GetOpt(Get(response, "data"), "items")).None?
                  && ArrayAt(Get(response, "data")).Some? ==>
                    r == ArrayAt(Get(response, "data")).value)
    ensures ReachesTopLevel(response, parse) && NoTopLevelArray(response) ==>
              var m := Get(response, "message");
              && (!TruthyOpt(m) || ParseValue(m.value, parse).None? ==> r == [])
              && (TruthyOpt(m) && ParseValue(m.value, parse).Some? ==>
                    var pm := ParseValue(m.value, parse).value;
                    && (pm.JArr? ==> r == pm.elems)
                    && (!pm.JArr? && ArrayAt(Get(pm, "items")).Some? ==> r == ArrayAt(Get(pm, "items")).value)
                    && (!pm.JArr? && ArrayAt(Get(pm, "items")).None? ==> r == []))
  {
    var body := Get(response, "upstreamBody");
    if TruthyOpt(body) && body.value.JStr? && parse(body.value.s).None? then []
    else
      var parsed := if TruthyOpt(body) && body.value.JStr? then parse(body.value.s) else body;
      if TruthyOpt(body) && FromUpstream(parsed.value).Some? then FromUpstream(parsed.value).value
      else FromEnvelope(response, parse)
  }

  /** An array response is its own item list. */
  lemma ExtractItemsOfArray(es: seq<Json>, parse: string -> Option<Json>)
    ensures ExtractItems(JArr(es), parse) == es
  {
  }

  /** An upstream body that is a string but not JSON gives no items, whatever
      else the response holds. */
  lemma ExtractItemsUnparsableBody(response: Json, body: string, parse: string -> Option<Json>)
    requires Get(response, "upstreamBody") == Some(JStr(body)) && body != ""
    requires parse(body).None?
    ensures ExtractItems(response, parse) == []
  {
  }

  /** A single record sent as the upstream body, with a field such as
      `Item ID`, is wrapped into a one-item list. */
  lemma {:induction false} ExtractItemsSingleRecord(response: Json, record: seq<Field>, parse: string -> Option<Json>)
    requires Get(response, "upstreamBody") == Some(JObj(record))
    requires Lookup(record, "items").None?
    requires exists j :: 0 <= j < |record| && record[j].key == "Item ID"
    ensures ExtractItems(response, parse) == [JObj(record)]
  {
    var j :| 0 <= j < |record| && record[j].key == "Item ID";
    assert ItemFieldAt(record[j].key, 0);
  }

  /** Where the envelope carries no token, a string upstream body holding an
      array means the same list to the item reader as to the client's
      envelope reader. */
  lemma ExtractItemsAgreesWithEnvelope(response: Json, body: string, es: seq<Json>, parse: string -> Option<Json>)
    requires response.JObj? && !TruthyOpt(Get(response, "token"))
    requires Get(response, "upstreamBody") == Some(JStr(body)) && body != ""
    requires parse(body) == Some(JArr(es))
    ensures ParseProxyResponse(response, parse) == ProxyResult(true, JArr(es))
    ensures ExtractItems(response, parse) == es
  {
  }

  // ---------------------------------------------------------------------
  // the item mapping
  // ---------------------------------------------------------------------

  const IdNames: seq<string> := ["Item ID", "itemId", "id"]
  const NameNames: seq<string> := ["Item Name", "name"]
  const PriceNames: seq<string> := ["Item Price", "price"]
  const QtyNames: seq<string> := ["Quantity Available", "qty", "quantity"]
  const ExpiryNames: seq<string> := ["Expiry Date", "expiryDate"]
  const DescriptionNames: seq<string> := ["Description", "description"]

  /** `Number(v) || 0`. */
  function NumberOrZero(v: Json, strToNum: string -> Option<int>): int {
    match ToNumber(v, strToNum)
    case Some(n) => n
    case None => 0
  }

  /** `parseInt(String(v), 10) || 0`. */
  function IntOrZero(v: Json): int {
    ParseInt(ToJsString(v), Decimal).GetOr(0)
  }

  /** A number survives `String` and `parseInt`. */
  lemma IntOrZeroOfNumber(n: int)
    ensures IntOrZero(JNum(n)) == n
  {
    ParseIntOfIntToString(n, Decimal);
  }

  /** A present, truthy value, or None (`x || undefined`). */
  function TruthyOrNone(x: Option<Json>): (r: Option<Json>)
    ensures r.Some? <==> TruthyOpt(x)
    ensures r.Some? ==> r == x
  {
    if TruthyOpt(x) then x else None
  }

  /** What `get` found for each field of a record. */
  datatype Found = Found(id: Option<Json>, name: Option<Json>, price: Option<Json>,
                         qty: Option<Json>, expiry: Option<Json>, description: Option<Json>)

  /** The six `get` calls on one record. */
  function FoundFields(record: Json): Found {
    Found(NormalizedValue(record, IdNames), NormalizedValue(record, NameNames),
          NormalizedValue(record, PriceNames), NormalizedValue(record, QtyNames),
          NormalizedValue(record, ExpiryNames), NormalizedValue(record, DescriptionNames))
  }

  /** The item built from what was found: `String` of the id (or of
      `randomId`, the `Math.random()` text), `String` of the name or "", the
      number or 0, the integer or 0, and the expiry and description as they
      are when truthy. `strToNum` is `Number` on strings. */
  function BuildItem(f: Found, randomId: string, strToNum: string -> Option<int>): (r: Item)
    ensures r.itemId.JStr?
    ensures r.expiryDate.Some? <==> TruthyOpt(f.expiry)
    ensures r.description.Some? <==> TruthyOpt(f.description)
  {
    Item(
      JStr(ToJsString(OrElse(f.id, JStr(randomId)))),
      ToJsString(OrElse(f.name, JStr(""))),
      NumberOrZero(OrElse(f.price, JNum(0)), strToNum),
      IntOrZero(OrElse(f.qty, JNum(0))),
      TruthyOrNone(f.expiry),
      TruthyOrNone(f.description))
  }

  /** The record `getAllItems` makes of one element of the list. */
  function MapItem(record: Json, randomId: string, strToNum: string -> Option<int>): (r: Item)
    ensures r.itemId.JStr?
  {
    BuildItem(FoundFields(record), randomId, strToNum)
  }

  /** A record with none of the fields, or a value that is not a record,
      becomes the empty item: the random id, no name, price and quantity 0. */
  lemma BuildItemDefaults(randomId: string, strToNum: string -> Option<int>)
    ensures BuildItem(Found(None, None, None, None, None, None), randomId, strToNum)
              == Item(JStr(randomId), "", 0, 0, None, None)
  {
    assert ToJsString(OrElse(None, JStr(randomId))) == randomId;
    assert ToJsString(OrElse(None, JStr(""))) == "";
    assert NumberOrZero(OrElse(None, JNum(0)), strToNum) == 0;
    assert IntOrZero(OrElse(None, JNum(0))) == 0 by {
      IntOrZeroOfNumber(0);
    }
  }

  /** `getNormalizedValue` finds nothing in a value that is not an array or
      object, so such a list element becomes the empty item. */
  lemma MapItemOfPrimitive(record: Json, randomId: string, strToNum: string -> Option<int>)
    requires !TypeofObject(record) || record.JNull?
    ensures MapItem(record, randomId, strToNum) == Item(JStr(randomId), "", 0, 0, None, None)
  {
    BuildItemDefaults(randomId, strToNum);
  }

  /** A numeric quantity or price is taken as it is: `String` then
      `parseInt` gives the number back. */
  lemma BuildItemNumbers(f: Found, randomId: string, strToNum: string -> Option<int>, qty: int, price: int)
    requires f.qty == Some(JNum(qty)) && f.price == Some(JNum(price))
    ensures BuildItem(f, randomId, strToNum).qty == qty
    ensures BuildItem(f, randomId, strToNum).price == price
  {
    assert OrElse(f.qty, JNum(0)) == JNum(qty);
    assert OrElse(f.price, JNum(0)) == JNum(price);
    IntOrZeroOfNumber(qty);
  }

  /** A non-empty string id and a string name are kept as they are. */
  lemma BuildItemStrings(f: Found, randomId: string, strToNum: string -> Option<int>, id: string, name: string)
    requires f.id == Some(JStr(id)) && id != ""
    requires f.name == Some(JStr(name))
    ensures BuildItem(f, randomId, strToNum).itemId == JStr(id)
    ensures BuildItem(f, randomId, strToNum).name == name
  {
    assert OrElse(f.id, JStr(randomId)) == JStr(id);
    assert OrElse(f.name, JStr("")) == JStr(name);
  }

  // ---------------------------------------------------------------------
  // handleError, getAllItems, createItem
  // ---------------------------------------------------------------------

  const UnknownError := "An unknown error occurred"

  /** `handleError(error).message`: the server's `data.message`, else the
      error's own message, else the fixed text. */
  function HandleError(e: HttpError): (m: string)
    ensures var msg := if e.response.Some? then Get(e.response.value.data, "message") else None;
            TruthyOpt(msg) && msg.value.JStr? ==> m == msg.value.s
    ensures e.response.None? && e.message != "" ==> m == e.message
    ensures e.response.None? && e.message == "" ==> m == UnknownError
    ensures m == UnknownError ==> e.message == "" || e.message == UnknownError || e.response.Some?
    ensures var msg := if e.response.Some? then Get(e.response.value.data, "message") else None;
            && (TruthyOpt(msg) ==> m == ToJsString(msg.value))
            && (!TruthyOpt(msg) && e.message != "" ==> m == e.message)
            && (!TruthyOpt(msg) && e.message == "" ==> m == UnknownError)
  {
    if e.response.Some? && Truthy(e.response.value.data) && TruthyOpt(Get(e.response.value.data, "message")) then
      ToJsString(Get(e.response.value.data, "message").value)
    else if e.message != "" then e.message
    else UnknownError
  }

  /** A server message wins over the client's; the fixed text is used only
      when neither is there, so a request that failed with a message never
      reports the unknown error. */
  lemma HandleErrorPriority(e: HttpError, serverMessage: string)
    ensures e.response.Some? && Get(e.response.value.data, "message") == Some(JStr(serverMessage)) && serverMessage != ""
            ==> HandleError(e) == serverMessage
    ensures HandleError(e) == UnknownError && e.message != "" ==> e.message == UnknownError || e.response.Some?
    ensures e.response.None? ==> HandleError(e) == if e.message != "" then e.message else UnknownError
    ensures e.response.Some? && !TruthyOpt(Get(e.response.value.data, "message")) ==>
              HandleError(e) == if e.message != "" then e.message else UnknownError
  {
  }

  /** `getAllItems()`: the extracted list mapped record by record, or the
      message of the error it throws. `randomIds(i)` is the random id of the
      `i`-th record. */
  function AllItems(outcome: HttpOutcome, parse: string -> Option<Json>, strToNum: string -> Option<int>,
                    randomIds: nat -> string): (r: Result<seq<Item>, string>)
    ensures outcome.Received? ==> r.Ok? && |r.value| == |ExtractItems(outcome.data, parse)|
    ensures outcome.Received? ==> forall i :: 0 <= i < |r.value| ==>
              r.value[i] == MapItem(ExtractItems(outcome.data, parse)[i], randomIds(i), strToNum)
    ensures outcome.Failed? ==> r == Err(HandleError(outcome.error))
  {
    match outcome
    case Received(data) =>
      var records := ExtractItems(data, parse);
      Ok(seq(|records|, i requires 0 <= i < |records| => MapItem(records[i], randomIds(i), strToNum)))
    case Failed(e) => Err(HandleError(e))
  }

  /** `createItem(itemData)`: the submitted fields with the id the server
      returned in `data.itemId`, or the random id when it returned none. */
  function CreatedItem(outcome: HttpOutcome, d: ItemData, randomId: string): (r: Result<Item, string>)
    ensures r.Ok? <==> outcome.Received?
    ensures r.Ok? ==> r.value.name == d.name && r.value.price == d.price && r.value.qty == d.qty
                      && r.value.expiryDate == d.expiryDate && r.value.description == d.description
    ensures r.Ok? && TruthyOpt(Get(outcome.data, "itemId")) ==> r.value.itemId == Get(outcome.data, "itemId").value
    ensures r.Ok? && !TruthyOpt(Get(outcome.data, "itemId")) ==> r.value.itemId == JStr(randomId)
    ensures outcome.Failed? ==> r == Err(HandleError(outcome.error))
  {
    match outcome
    case Received(data) =>
      Ok(Item(OrElse(Get(data, "itemId"), JStr(randomId)), d.name, d.price, d.qty, d.expiryDate, d.description))
    case Failed(e) => Err(HandleError(e))
  }
}
