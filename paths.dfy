/**
 * The parts of .NET's `System.IO.Path` on Windows that the player relies on:
 * `IsPathRooted`, `GetExtension`, `GetFileName` and
 * `GetFileNameWithoutExtension`, together with the ASCII part of
 * `string.ToLower()`.
 */
module Paths {

  predicate IsDirectorySeparator(c: char) { c == '\\' || c == '/' }

  predicate IsAsciiLetter(c: char) { 'a' <= c <= 'z' || 'A' <= c <= 'Z' }

  /** The length of a drive prefix such as "C:", which `GetFileName` never returns. */
  function DriveLength(p: string): (n: nat)
    ensures n <= |p|
  {
    if |p| >= 2 && IsAsciiLetter(p[0]) && p[1] == ':' then 2 else 0
  }

  /** `Path.IsPathRooted`: a leading separator or a drive prefix. */
  predicate IsPathRooted(p: string)
  {
    (|p| >= 1 && IsDirectorySeparator(p[0])) || DriveLength(p) == 2
  }

  /** A character that ends the search for an extension or for a file name's last dot. */
  predicate StopsExtension(c: char) { c == '.' || IsDirectorySeparator(c) }

  /**
   * An extension as `GetExtension` returns it: a dot followed by at least one
   * character, none of them a dot or a separator.
   */
  predicate IsExtension(e: string)
  {
    |e| >= 2 && e[0] == '.' && forall k :: 1 <= k < |e| ==> !StopsExtension(e[k])
  }

  predicate EndsWith(s: string, suffix: string)
  {
    |suffix| <= |s| && s[|s| - |suffix|..] == suffix
  }

  /**
   * `Path.GetExtension`: from the last dot to the end, searched backwards from
   * the end and stopping at a separator; empty when there is no dot or when the
   * dot is the last character.
   */
  function GetExtension(p: string): (e: string)
    ensures e == [] || (IsExtension(e) && EndsWith(p, e))
  {
    ExtensionScan(p, |p|)
  }

  /** The backward search of `GetExtension`, over the positions below `i`. */
  function ExtensionScan(p: string, i: nat): (e: string)
    requires i <= |p|
    requires forall k :: i <= k < |p| ==> !StopsExtension(p[k])
    ensures e == [] || (IsExtension(e) && EndsWith(p, e))
  {
    if i == 0 then []
    else if p[i - 1] == '.' then (if i == |p| then [] else p[i - 1..])
    else if IsDirectorySeparator(p[i - 1]) then []
    else ExtensionScan(p, i - 1)
  }

  lemma {:induction false} ScanReachesDot(p: string, j: nat, i: nat)
    requires j < i <= |p| && j + 1 < |p| && p[j] == '.'
    requires forall k :: j < k < |p| ==> !StopsExtension(p[k])
    ensures ExtensionScan(p, i) == p[j..]
    decreases i - j
  {
    if i > j + 1 {
      ScanReachesDot(p, j, i - 1);
    }
  }

  /** A path ends with an extension exactly when `GetExtension` returns that extension. */
  lemma ExtensionIffSuffix(p: string, e: string)
    requires IsExtension(e)
    ensures GetExtension(p) == e <==> EndsWith(p, e)
  {
    if EndsWith(p, e) {
      var j := |p| - |e|;
      forall k | j < k < |p| ensures !StopsExtension(p[k]) {
        assert p[k] == e[k - j];
      }
      ScanReachesDot(p, j, |p|);
    }
  }

  /** `Path.GetFileName`: the part after the last separator and after any drive prefix. */
  function GetFileName(p: string): (name: string)
    ensures EndsWith(p, name)
    ensures forall k :: 0 <= k < |name| ==> !IsDirectorySeparator(name[k])
  {
    p[NameStart(p, |p|)..]
  }

  /** Where `GetFileName`'s backward search from position `i` stops. */
  function NameStart(p: string, i: nat): (start: nat)
    requires i <= |p|
    requires forall k :: i <= k < |p| ==> !IsDirectorySeparator(p[k])
    ensures start <= i
    ensures forall k :: start <= k < |p| ==> !IsDirectorySeparator(p[k])
  {
    if i == 0 then 0
    else if i - 1 < DriveLength(p) || IsDirectorySeparator(p[i - 1]) then i
    else NameStart(p, i - 1)
  }

  /** The file name is what follows the last separator, when that separator is past any drive prefix. */
  lemma {:induction false} NameAfterSeparator(p: string, j: nat, i: nat)
    requires j < i <= |p| && IsDirectorySeparator(p[j]) && DriveLength(p) <= j
    requires forall k :: j < k < |p| ==> !IsDirectorySeparator(p[k])
    ensures NameStart(p, i) == j + 1
    decreases i
  {
    if i > j + 1 {
      NameAfterSeparator(p, j, i - 1);
    }
  }

  /** The index of the last occurrence of `c` in `s`, or -1 (`string.LastIndexOf(char)`). */
  function LastIndexOf(s: string, c: char): (k: int)
    ensures -1 <= k < |s|
    ensures k == -1 ==> c !in s
    ensures 0 <= k ==> s[k] == c && forall j :: k < j < |s| ==> s[j] != c
  {
    if s == [] then -1
    else if s[|s| - 1] == c then |s| - 1
    else LastIndexOf(s[..|s| - 1], c)
  }

  /** `Path.GetFileNameWithoutExtension`: the file name cut at its last dot. */
  function GetFileNameWithoutExtension(p: string): (stem: string)
    ensures forall k :: 0 <= k < |stem| ==> !IsDirectorySeparator(stem[k])
  {
    var name := GetFileName(p);
    var dot := LastIndexOf(name, '.');
    if dot < 0 then name else name[..dot]
  }

  /**
   * The name without its extension, followed by the extension, is the whole
   * file name, whenever the path does not end in a dot.
   */
  lemma StemThenExtension(p: string)
    requires p == [] || p[|p| - 1] != '.'
    ensures GetFileNameWithoutExtension(p) + GetExtension(p) == GetFileName(p)
  {
    var name := GetFileName(p);
    var dot := LastIndexOf(name, '.');
    var start := |p| - |name|;
    if dot < 0 {
      NoDotNoExtension(p, start);
    } else {
      assert p[start + dot] == '.';
      forall k | start + dot < k < |p| ensures !StopsExtension(p[k]) {
        assert p[k] == name[k - start];
      }
      assert start + dot + 1 < |p|;
      ScanReachesDot(p, start + dot, |p|);
      assert name[..dot] + name[dot..] == name;
    }
  }

  /** Without a dot after `start`, where the file name begins, there is no extension. */
  lemma NoDotNoExtension(p: string, start: nat)
    requires start == NameStart(p, |p|)
    requires forall k :: start <= k < |p| ==> p[k] != '.'
    ensures GetExtension(p) == []
  {
    NameStartStops(p, |p|);
    NoDotScan(p, start, |p|);
  }

  /** `GetFileName` stops at the start of the path, after a separator, or after a drive prefix. */
  lemma {:induction false} NameStartStops(p: string, i: nat)
    requires i <= |p|
    requires forall k :: i <= k < |p| ==> !IsDirectorySeparator(p[k])
    ensures var s := NameStart(p, i); s == 0 || IsDirectorySeparator(p[s - 1]) || s <= DriveLength(p)
  {
    if i > 0 && !(i - 1 < DriveLength(p) || IsDirectorySeparator(p[i - 1])) {
      NameStartStops(p, i - 1);
    }
  }

  lemma {:induction false} NoDotScan(p: string, start: nat, i: nat)
    requires start <= i <= |p|
    requires start == 0 || IsDirectorySeparator(p[start - 1]) || start <= DriveLength(p)
    requires forall k :: start <= k < |p| ==> p[k] != '.'
    requires forall k :: i <= k < |p| ==> !StopsExtension(p[k])
    requires forall k :: start <= k < |p| ==> !IsDirectorySeparator(p[k])
    ensures ExtensionScan(p, i) == []
    decreases i
  {
    if i > start {
      NoDotScan(p, start, i - 1);
    } else if i > 0 && !IsDirectorySeparator(p[i - 1]) {
      // The scan goes on into the drive prefix "X:", which holds no dot.
      assert i <= 2 && IsAsciiLetter(p[0]) && p[1] == ':';
      if i == 2 {
        assert ExtensionScan(p, 2) == ExtensionScan(p, 1);
      }
    }
  }

  function LowerChar(c: char): (l: char)
    ensures StopsExtension(l) <==> StopsExtension(c)
    ensures l == '.' <==> c == '.'
  {
    if 'A' <= c <= 'Z' then (c as int + 32) as char else c
  }

  /** `string.ToLower()` on the ASCII letters; every other character is kept. */
  function ToLower(s: string): (l: string)
    ensures |l| == |s| && forall k :: 0 <= k < |s| ==> l[k] == LowerChar(s[k])
  {
    seq(|s|, k requires 0 <= k < |s| => LowerChar(s[k]))
  }

  /** Lower-casing a path and taking its extension give the same text in either order. */
  lemma ExtensionOfLower(p: string)
    ensures GetExtension(ToLower(p)) == ToLower(GetExtension(p))
  {
    ScanOfLower(p, |p|);
  }

  lemma {:induction false} ScanOfLower(p: string, i: nat)
    requires i <= |p|
    requires forall k :: i <= k < |p| ==> !StopsExtension(p[k])
    ensures ExtensionScan(ToLower(p), i) == ToLower(ExtensionScan(p, i))
    decreases i
  {
    var l := ToLower(p);
    assert forall k :: i <= k < |p| ==> !StopsExtension(l[k]);
    if i > 0 && p[i - 1] == '.' && i < |p| {
      assert l[i - 1..] == ToLower(p[i - 1..]);
    } else if i > 0 && p[i - 1] != '.' && !IsDirectorySeparator(p[i - 1]) {
      ScanOfLower(p, i - 1);
    }
  }
}
