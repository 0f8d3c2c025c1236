/** Short display names of permissions (PermissionsManager.kt):
    "android.permission.ACCESS_FINE_LOCATION" is shown as "Location". */
module ShortNames {
  import opened Base

  /** The index of the last `sep` among the first `n` characters of `s`,
      or -1 when there is none. */
  function LastIndexBefore(s: string, sep: char, n: nat): (k: int)
    requires n <= |s|
    ensures -1 <= k < n
    ensures k >= 0 ==> s[k] == sep
    ensures forall j :: k < j < n ==> s[j] != sep
  {
    if n == 0 then -1
    else if s[n - 1] == sep then n - 1
    else LastIndexBefore(s, sep, n - 1)
  }

  /** `t` is a suffix of `s`. */
  predicate IsSuffix(t: string, s: string) {
    |t| <= |s| && forall i :: 0 <= i < |t| ==> t[i] == s[|s| - |t| + i]
  }

  /** The text after the last `sep` in `s`, or all of `s` when `sep` does not
      occur in it: the last element of Kotlin's `s.split(sep)`. */
  function AfterLast(s: string, sep: char): (t: string)
    ensures IsSuffix(t, s)
    ensures forall i :: 0 <= i < |t| ==> t[i] != sep
    ensures |t| == |s| || s[|s| - |t| - 1] == sep
  {
    var k := LastIndexBefore(s, sep, |s|);
    seq(|s| - k - 1, i requires 0 <= i < |s| - k - 1 => s[k + 1 + i])
  }

  /** The three properties of AfterLast's contract determine it. */
  lemma AfterLastUnique(s: string, sep: char, t: string)
    requires IsSuffix(t, s)
    requires forall i :: 0 <= i < |t| ==> t[i] != sep
    requires |t| == |s| || s[|s| - |t| - 1] == sep
    ensures AfterLast(s, sep) == t
  {
    // no separator lies inside the suffix, so the last one comes before it
    assert forall j :: |s| - |t| <= j < |s| ==> s[j] == t[j - (|s| - |t|)];
  }

  /** Case mapping of the ASCII letters; other characters are left as they are. */
  function LowerAscii(c: char): char {
    if 'A' <= c <= 'Z' then (c as int + 32) as char else c
  }

  function UpperAscii(c: char): char {
    if 'a' <= c <= 'z' then (c as int - 32) as char else c
  }

  /** String.toLowerCase, over ASCII. */
  function ToLower(s: string): (r: string)
    ensures |r| == |s|
    ensures forall i :: 0 <= i < |s| ==> r[i] == LowerAscii(s[i])
  {
    seq(|s|, i requires 0 <= i < |s| => LowerAscii(s[i]))
  }

  /** String.capitalize: the first character in upper case, the rest unchanged. */
  function Capitalize(s: string): (r: string)
    ensures |r| == |s|
    ensures |s| > 0 ==> r[0] == UpperAscii(s[0])
    ensures forall i :: 1 <= i < |s| ==> r[i] == s[i]
  {
    seq(|s|, i requires 0 <= i < |s| => if i == 0 then UpperAscii(s[0]) else s[i])
  }

  /** The last segment of a permission name: after the last '.', then after
      the last '_'. */
  function Segment(permission: Permission): (seg: string)
    ensures IsSuffix(seg, permission)
    ensures forall i :: 0 <= i < |seg| ==> seg[i] != '.' && seg[i] != '_'
    ensures |seg| == |permission| || permission[|permission| - |seg| - 1] in {'.', '_'}
  {
    AfterLast(AfterLast(permission, '.'), '_')
  }

  /** getShortNameOfPermission. */
  function ShortNameOf(permission: Permission): (r: string)
    ensures |r| == |Segment(permission)|
  {
    Capitalize(ToLower(Segment(permission)))
  }

  /** The short name is the last segment, first letter in upper case and the
      others in lower case, and it holds neither '.' nor '_'. */
  lemma ShortNameShape(permission: Permission)
    ensures var seg, r := Segment(permission), ShortNameOf(permission);
      && |r| == |seg|
      && (forall i :: 0 <= i < |r| ==> r[i] != '.' && r[i] != '_')
      && (|r| > 0 ==> r[0] == UpperAscii(LowerAscii(seg[0])))
      && forall i :: 1 <= i < |r| ==> r[i] == LowerAscii(seg[i])
  {
    var seg := Segment(permission);
    var low := ToLower(seg);
    var r := Capitalize(low);
    forall i | 0 <= i < |r| ensures r[i] != '.' && r[i] != '_' {
      assert seg[i] != '.' && seg[i] != '_';
      assert low[i] == LowerAscii(seg[i]);
    }
  }

  /** A name with neither '.' nor '_' is taken whole. */
  lemma ShortNameOfPlainName(permission: Permission)
    requires forall i :: 0 <= i < |permission| ==> permission[i] != '.' && permission[i] != '_'
    ensures ShortNameOf(permission) == Capitalize(ToLower(permission))
  {
    AfterLastUnique(permission, '.', permission);
    AfterLastUnique(permission, '_', permission);
  }

  /** After a separator, a tail with no separator in it is what remains. */
  lemma AfterLastOfConcat(a: string, b: string, sep: char)
    requires |a| > 0 && a[|a| - 1] == sep
    requires forall i :: 0 <= i < |b| ==> b[i] != sep
    ensures AfterLast(a + b, sep) == b
  {
    assert IsSuffix(b, a + b);
    AfterLastUnique(a + b, sep, b);
  }

  /** The text after the dot of prefix.middle_last, when middle has no dot. */
  lemma AfterDotOfDotted(prefix: string, middle: string, last: string)
    requires forall i :: 0 <= i < |middle| ==> middle[i] != '.'
    requires forall i :: 0 <= i < |last| ==> last[i] != '.'
    ensures AfterLast(prefix + "." + middle + "_" + last, '.') == middle + "_" + last
  {
    var tail := middle + "_" + last;
    assert prefix + "." + middle + "_" + last == (prefix + ".") + tail;
    assert forall i :: 0 <= i < |tail| ==> tail[i] != '.' by {
      forall i | 0 <= i < |tail| ensures tail[i] != '.' {
        if i < |middle| {
          assert tail[i] == middle[i];
        } else if i > |middle| {
          assert tail[i] == last[i - |middle| - 1];
        }
      }
    }
    AfterLastOfConcat(prefix + ".", tail, '.');
  }

  /** A name of the form prefix.middle_last, with no '.' after the dot and
      no '_' in the last part, is shown by its last part. */
  lemma ShortNameOfDotted(prefix: string, middle: string, last: string)
    requires forall i :: 0 <= i < |middle| ==> middle[i] != '.'
    requires forall i :: 0 <= i < |last| ==> last[i] != '.' && last[i] != '_'
    ensures ShortNameOf(prefix + "." + middle + "_" + last) == Capitalize(ToLower(last))
  {
    AfterDotOfDotted(prefix, middle, last);
    AfterLastOfConcat(middle + "_", last, '_');
  }

  /** "LOCATION", lower-cased and capitalised, reads "Location". */
  lemma NormaliseLocation(last: string)
    requires last == "LOCATION"
    ensures Capitalize(ToLower(last)) == "Location"
  {
    var r := Capitalize(ToLower(last));
    assert r[0] == UpperAscii(LowerAscii('L')) == 'L';
    assert r[1] == LowerAscii('O') == 'o';
    assert r[2] == LowerAscii('C') == 'c';
    assert r[3] == LowerAscii('A') == 'a';
    assert r[4] == LowerAscii('T') == 't';
    assert r[5] == LowerAscii('I') == 'i';
    assert r[6] == LowerAscii('O') == 'o';
    assert r[7] == LowerAscii('N') == 'n';
  }

  /** The example from the library's documentation:
      "android.permission.ACCESS_FINE_LOCATION" is shown as "Location". */
  lemma ShortNameOfFineLocation()
    ensures ShortNameOf("android.permission.ACCESS_FINE_LOCATION") == "Location"
  {
    var prefix, middle, last := "android.permission", "ACCESS_FINE", "LOCATION";
    assert prefix + "." + middle + "_" + last == "android.permission.ACCESS_FINE_LOCATION";
    ShortNameOfDotted(prefix, middle, last);
    NormaliseLocation(last);
  }

  lemma CaseMappingStable(c: char)
    ensures LowerAscii(LowerAscii(c)) == LowerAscii(c)
    ensures UpperAscii(LowerAscii(UpperAscii(LowerAscii(c)))) == UpperAscii(LowerAscii(c))
  {
  }

  /** Lower-casing then capitalising a second time changes nothing. */
  lemma NormaliseStable(seg: string)
    ensures Capitalize(ToLower(Capitalize(ToLower(seg)))) == Capitalize(ToLower(seg))
  {
    var r := Capitalize(ToLower(seg));
    var s := Capitalize(ToLower(r));
    forall i | 0 <= i < |r| ensures s[i] == r[i] {
      CaseMappingStable(seg[i]);
      if i > 0 {
        assert r[i] == ToLower(seg)[i];
        assert s[i] == ToLower(r)[i];
      }
    }
  }

  /** A short name is its own short name. */
  lemma ShortNameIdempotent(permission: Permission)
    ensures ShortNameOf(ShortNameOf(permission)) == ShortNameOf(permission)
  {
    var r := ShortNameOf(permission);
    ShortNameShape(permission);
    ShortNameOfPlainName(r);
    NormaliseStable(Segment(permission));
  }

  // ---------------------------------------------------------------------
  // getListOfShortNamePermission

  predicate NoDuplicates(s: seq<string>) {
    forall i, j :: 0 <= i < j < |s| ==> s[i] != s[j]
  }

  /** The short name of every permission, in order. */
  function ShortNamesOf(permissions: seq<Permission>): (r: seq<string>)
    ensures |r| == |permissions|
    ensures forall i :: 0 <= i < |r| ==> r[i] == ShortNameOf(permissions[i])
  {
    seq(|permissions|, i requires 0 <= i < |permissions| => ShortNameOf(permissions[i]))
  }

  /** The first occurrence of every element, in the order of first occurrence. */
  function FirstOccurrences(s: seq<string>): seq<string>
    decreases |s|
  {
    if |s| == 0 then []
    else
      var d := FirstOccurrences(s[..|s| - 1]);
      if s[|s| - 1] in d then d else d + [s[|s| - 1]]
  }

  /** The position of the first occurrence of `x` in `s`. */
  function IndexOf(s: seq<string>, x: string): (k: nat)
    requires x in s
    ensures k < |s| && s[k] == x && x !in s[..k]
  {
    if s[0] == x then 0 else 1 + IndexOf(s[1..], x)
  }

  lemma IndexOfUnique(s: seq<string>, x: string, k: nat)
    requires k < |s| && s[k] == x && x !in s[..k]
    ensures IndexOf(s, x) == k
  {
    // an earlier occurrence would lie in s[..k], a later one contradicts
    // the contract of IndexOf
  }

  /** Appending keeps the first occurrences of what was already there. */
  lemma IndexOfInPrefix(s: seq<string>, y: string, x: string)
    requires x in s
    ensures IndexOf(s + [y], x) == IndexOf(s, x)
  {
    var k := IndexOf(s, x);
    assert (s + [y])[..k] == s[..k];
    IndexOfUnique(s + [y], x, k);
  }

  /** The output holds exactly the input's elements, and is no longer. */
  lemma {:induction false} FirstOccurrencesMembers(s: seq<string>)
    ensures forall x :: x in FirstOccurrences(s) <==> x in s
    ensures |FirstOccurrences(s)| <= |s|
    decreases |s|
  {
    if |s| > 0 {
      var init := s[..|s| - 1];
      FirstOccurrencesMembers(init);
      assert s == init + [s[|s| - 1]];
    }
  }

  lemma {:induction false} FirstOccurrencesDistinct(s: seq<string>)
    ensures NoDuplicates(FirstOccurrences(s))
    decreases |s|
  {
    if |s| > 0 {
      FirstOccurrencesDistinct(s[..|s| - 1]);
    }
  }

  /** Elements appear in the order of their first occurrence in the input. */
  lemma {:induction false} FirstOccurrencesOrdered(s: seq<string>)
    ensures forall x :: x in FirstOccurrences(s) ==> x in s
    ensures var r := FirstOccurrences(s);
      forall i, j :: 0 <= i < j < |r| ==> IndexOf(s, r[i]) < IndexOf(s, r[j])
    decreases |s|
  {
    FirstOccurrencesMembers(s);
    if |s| > 0 {
      var init, y := s[..|s| - 1], s[|s| - 1];
      assert s == init + [y];
      FirstOccurrencesOrdered(init);
      FirstOccurrencesMembers(init);
      var d := FirstOccurrences(init);
      forall x | x in d ensures IndexOf(s, x) == IndexOf(init, x) {
        IndexOfInPrefix(init, y, x);
      }
      if y !in d {
        assert y !in s[..|init|];
        IndexOfUnique(s, y, |init|);
      }
    }
  }

  /** getListOfShortNamePermission: the short names of `permissions`, each
      once, in the order in which they first occur. */
  method ListOfShortNames(permissions: seq<Permission>) returns (names: seq<string>)
    ensures names == FirstOccurrences(ShortNamesOf(permissions))
    ensures NoDuplicates(names)
    ensures forall i :: 0 <= i < |permissions| ==> ShortNameOf(permissions[i]) in names
    ensures forall n :: n in names ==> n in ShortNamesOf(permissions)
    ensures forall i, j :: 0 <= i < j < |names| ==>
      IndexOf(ShortNamesOf(permissions), names[i]) < IndexOf(ShortNamesOf(permissions), names[j])
    ensures |names| <= |permissions|
  {
    ghost var all := ShortNamesOf(permissions);
    names := [];
    for i := 0 to |permissions|
      invariant names == FirstOccurrences(all[..i])
    {
      var shortNamePerm := ShortNameOf(permissions[i]);
      assert all[..i + 1][..i] == all[..i];
      if shortNamePerm !in names {
        names := names + [shortNamePerm];
      }
    }
    assert all[..|permissions|] == all;
    FirstOccurrencesMembers(all);
    FirstOccurrencesDistinct(all);
    FirstOccurrencesOrdered(all);
    forall i | 0 <= i < |permissions| ensures ShortNameOf(permissions[i]) in names {
      assert all[i] in all;
    }
  }
}
