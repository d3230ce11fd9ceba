/** Notions shared by the models: an optional value, decimal text and sorted key lists. */
module Common {

  datatype Option<+T> = None | Some(value: T)
  {
    function GetOr(default: T): T {
      if Some? then value else default
    }
  }

  /** The characters that Python's `str.strip()` removes. */
  predicate IsSpace(c: char) {
    || 9 <= c as int <= 13 || 28 <= c as int <= 32 || c as int == 133 || c as int == 160
    || c as int == 5760 || 8192 <= c as int <= 8202 || c as int in {8232, 8233, 8239, 8287, 12288}
  }

  function LeftStrip(s: string): string {
    if s != "" && IsSpace(s[0]) then LeftStrip(s[1..]) else s
  }

  function RightStrip(s: string): string {
    if s != "" && IsSpace(s[|s| - 1]) then RightStrip(s[..|s| - 1]) else s
  }

  /** Python's `s.strip()`. */
  function Strip(s: string): string {
    RightStrip(LeftStrip(s))
  }

  /** Python's `value or default` on strings. */
  function OrElse(value: string, default: string): string {
    if value != "" then value else default
  }

  function NatText(n: nat): string {
    if n < 10 then ["0123456789"[n]] else NatText(n / 10) + ["0123456789"[n % 10]]
  }

  function IntText(n: int): string {
    if n < 0 then "-" + NatText(-n) else NatText(n)
  }

  ghost predicate Increasing(s: seq<int>) {
    forall i, j :: 0 <= i < j < |s| ==> s[i] < s[j]
  }

  lemma {:induction false} HasMinimum(s: set<int>)
    requires s != {}
    ensures exists m :: m in s && forall x :: x in s ==> m <= x
  {
    if forall m :: m !in s { assert false; }
    var m :| m in s;
    var rest := s - {m};
    if rest != {} {
      HasMinimum(rest);
      var n :| n in rest && forall x :: x in rest ==> n <= x;
      var least := if m < n then m else n;
      forall x | x in s ensures least <= x {
        assert x == m || x in rest;
      }
      assert least in s;
    } else {
      assert s == {m};
    }
  }

  /** Python's `sorted(keys)`. */
  function Sorted(s: set<int>): (r: seq<int>)
    ensures Increasing(r)
    ensures forall x :: x in r <==> x in s
  {
    if s == {} then []
    else
      HasMinimum(s);
      var m :| m in s && forall x :: x in s ==> m <= x;
      [m] + Sorted(s - {m})
  }

  lemma {:induction false} SortedSize(s: set<int>)
    ensures |Sorted(s)| == |s|
  {
    if s != {} {
      HasMinimum(s);
      var m := Sorted(s)[0];
      assert m in s && Sorted(s) == [m] + Sorted(s - {m});
      SortedSize(s - {m});
    }
  }

  /** An increasing list is determined by its elements. */
  lemma {:induction false} IncreasingUnique(a: seq<int>, b: seq<int>)
    requires Increasing(a) && Increasing(b)
    requires forall x :: x in a <==> x in b
    ensures a == b
  {
    assert a != [] ==> a[0] in a;
    assert b != [] ==> b[0] in b;
    if a != [] {
      assert a[0] == b[0];
      assert forall x :: x in a[1..] <==> x in a && x != a[0];
      assert forall x :: x in b[1..] <==> x in b && x != b[0];
      IncreasingUnique(a[1..], b[1..]);
    }
  }

  /** Increasing numbers below a bound are at most so many. */
  lemma {:induction false} IncreasingBelow(s: seq<int>, n: nat)
    requires Increasing(s) && forall x :: x in s ==> 0 <= x < n
    ensures |s| <= n
    ensures forall i :: 0 <= i < |s| ==> i <= s[i]
  {
    if s != [] {
      var m := |s| - 1;
      assert s[m] in s;
      assert forall x :: x in s[..m] ==> x in s;
      forall x | x in s[..m] ensures 0 <= x < s[m] {
        var i :| 0 <= i < m && s[..m][i] == x;
        assert s[i] < s[m];
      }
      IncreasingBelow(s[..m], s[m]);
      assert forall i :: 0 <= i < m ==> s[i] == s[..m][i];
    }
  }

  lemma {:induction false} IncreasingAbove(s: seq<int>, n: nat)
    requires Increasing(s) && |s| == n && forall x :: x in s ==> 0 <= x < n
    ensures forall i :: 0 <= i < n ==> s[i] == i
  {
    if n > 0 {
      var m := n - 1;
      assert s[m] in s;
      IncreasingBelow(s, n);
      forall x | x in s[..m] ensures 0 <= x < m {
        var i :| 0 <= i < m && s[..m][i] == x;
        assert s[i] in s && s[i] < s[m];
      }
      IncreasingAbove(s[..m], m);
      assert forall i :: 0 <= i < m ==> s[i] == s[..m][i];
    }
  }

  /** A text with something visible keeps it when it grows. */
  lemma StripGrows(s: string, more: string)
    requires Strip(s) != ""
    ensures Strip(s + more) != ""
  {
    BlankMeans(s);
    BlankMeans(s + more);
    var i :| 0 <= i < |s| && !IsSpace(s[i]);
    assert (s + more)[i] == s[i];
  }

  lemma BlankMeans(s: string)
    ensures Strip(s) == "" <==> forall i :: 0 <= i < |s| ==> IsSpace(s[i])
  {
    LeftBlank(s);
    if LeftStrip(s) != "" {
      RightKeeps(LeftStrip(s));
    }
  }

  lemma {:induction false} LeftBlank(s: string)
    ensures LeftStrip(s) == "" <==> forall i :: 0 <= i < |s| ==> IsSpace(s[i])
    ensures LeftStrip(s) != "" ==> !IsSpace(LeftStrip(s)[0])
  {
    if s != "" && IsSpace(s[0]) {
      LeftBlank(s[1..]);
      if LeftStrip(s) != "" {
        var i :| 0 <= i < |s| - 1 && !IsSpace(s[1..][i]);
        assert !IsSpace(s[i + 1]);
      }
    }
  }

  lemma {:induction false} RightKeeps(s: string)
    requires s != "" && !IsSpace(s[0])
    ensures RightStrip(s) != ""
  {
    if IsSpace(s[|s| - 1]) {
      RightKeeps(s[..|s| - 1]);
    }
  }
}
