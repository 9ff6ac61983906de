/** Names, component paths and their "/"-joined string form, with the orders that sort them. */
module Paths {

  /** A directory entry name as the kernel can report it. */
  predicate IsName(s: string) {
    s != "" && s != "." && s != ".." && '/' !in s
  }

  /** AppleDouble companions are skipped by every tree walk. */
  predicate Hidden(name: string) {
    "._" <= name
  }

  // ---------------------------------------------------------------- orders

  /** `a` sorts before `b` because they first differ (or `a` ends) at position `k`. */
  predicate LessAt<T(==)>(lt: (T, T) -> bool, a: seq<T>, b: seq<T>, k: nat) {
    k <= |a| && k < |b| && (forall i :: 0 <= i < k ==> a[i] == b[i]) && (k == |a| || lt(a[k], b[k]))
  }

  /** Lexicographic order, the order Python sorts strings and tuples in. */
  predicate Less<T(==)>(lt: (T, T) -> bool, a: seq<T>, b: seq<T>) {
    exists k: nat | k <= |a| :: LessAt(lt, a, b, k)
  }

  predicate CharLess(a: char, b: char) { a < b }

  predicate NameLess(a: string, b: string) { Less(CharLess, a, b) }

  predicate PathLess(a: seq<string>, b: seq<string>) { Less(NameLess, a, b) }

  ghost predicate Asymmetric<T(!new)>(lt: (T, T) -> bool) {
    forall x, y :: lt(x, y) ==> !lt(y, x)
  }

  lemma LessAsymmetric<T(!new)>(lt: (T, T) -> bool, a: seq<T>, b: seq<T>)
    requires Asymmetric(lt) && Less(lt, a, b)
    ensures !Less(lt, b, a)
  {
    var k: nat :| k <= |a| && LessAt(lt, a, b, k);
    assert forall l: nat | l <= |b| :: !LessAt(lt, b, a, l);
  }

  lemma OrdersAsymmetric()
    ensures Asymmetric(NameLess) && Asymmetric(PathLess)
  {
    forall x, y | NameLess(x, y) ensures !NameLess(y, x) {
      LessAsymmetric(CharLess, x, y);
    }
    forall x, y | PathLess(x, y) ensures !PathLess(y, x) {
      LessAsymmetric(NameLess, x, y);
    }
  }

  lemma NameLessTransitive(a: string, b: string, c: string)
    requires NameLess(a, b) && NameLess(b, c)
    ensures NameLess(a, c)
  {
    var k: nat :| k <= |a| && LessAt(CharLess, a, b, k);
    var l: nat :| l <= |b| && LessAt(CharLess, b, c, l);
    assert LessAt(CharLess, a, c, if k < l then k else l);
  }

  lemma {:induction false} NameLessTotal(a: string, b: string)
    ensures a == b || NameLess(a, b) || NameLess(b, a)
  {
    if a == [] {
      assert b == [] || LessAt(CharLess, a, b, 0);
    } else if b == [] {
      assert LessAt(CharLess, b, a, 0);
    } else if a[0] != b[0] {
      assert LessAt(CharLess, a, b, 0) || LessAt(CharLess, b, a, 0);
    } else {
      NameLessTotal(a[1..], b[1..]);
      assert a == [a[0]] + a[1..] && b == [b[0]] + b[1..];
      if NameLess(a[1..], b[1..]) {
        NameLessCons(a[0], a[1..], b[1..]);
      } else if NameLess(b[1..], a[1..]) {
        NameLessCons(a[0], b[1..], a[1..]);
      }
    }
  }

  lemma NameLessCons(h: char, a: string, b: string)
    requires NameLess(a, b)
    ensures NameLess([h] + a, [h] + b)
  {
    var k: nat :| k <= |a| && LessAt(CharLess, a, b, k);
    assert LessAt(CharLess, [h] + a, [h] + b, k + 1);
  }

  // ---------------------------------------------------- strictly sorted lists

  ghost predicate SortedBy<T>(lt: (T, T) -> bool, s: seq<T>) {
    forall i, j :: 0 <= i < j < |s| ==> lt(s[i], s[j])
  }

  /** A strictly sorted list is determined by its set of elements. */
  lemma {:induction false} SortedUnique<T(!new)>(lt: (T, T) -> bool, a: seq<T>, b: seq<T>)
    requires Asymmetric(lt) && SortedBy(lt, a) && SortedBy(lt, b)
    requires forall x :: x in a <==> x in b
    ensures a == b
  {
    assert b != [] ==> b[0] in a;
    if a != [] {
      assert a[0] in b;
      var j :| 0 <= j < |b| && b[j] == a[0];
      var i :| 0 <= i < |a| && a[i] == b[0];
      assert a[0] == b[0];
      forall x ensures x in a[1..] <==> x in b[1..] {
        if x in a[1..] {
          var m :| 1 <= m < |a| && a[m] == x;
          assert lt(a[0], x) && x in b;
        }
        if x in b[1..] {
          var m :| 1 <= m < |b| && b[m] == x;
          assert lt(b[0], x) && x in a;
        }
      }
      SortedUnique(lt, a[1..], b[1..]);
    }
  }

  /** The first name of a non-empty set of names. */
  lemma {:induction false} FirstName(names: set<string>) returns (m: string)
    requires names != {}
    ensures m in names && forall x :: x in names && x != m ==> NameLess(m, x)
  {
    var y :| y in names;
    if names == {y} {
      m := y;
    } else {
      var rest := names - {y};
      assert names == rest + {y};
      var r := FirstName(rest);
      NameLessTotal(r, y);
      if NameLess(r, y) {
        m := r;
      } else {
        m := y;
        forall x | x in names && x != m ensures NameLess(m, x) {
          if x != r { NameLessTransitive(y, r, x); }
        }
      }
    }
  }

  lemma FirstNameExists(names: set<string>)
    requires names != {}
    ensures exists m :: m in names && forall x :: x in names && x != m ==> NameLess(m, x)
  {
    var m := FirstName(names);
  }

  /** `sorted(names)`. */
  function Sorted(names: set<string>): (s: seq<string>)
    ensures SortedBy(NameLess, s)
    ensures forall x :: x in s <==> x in names
  {
    if names == {} then []
    else
      FirstNameExists(names);
      assert Asymmetric(NameLess) by { OrdersAsymmetric(); }
      var m :| m in names && forall x :: x in names && x != m ==> NameLess(m, x);
      [m] + Sorted(names - {m})
  }

  // ------------------------------------------------------------ joined paths

  /** `"/".join(path)`. */
  function Join(path: seq<string>): string {
    if path == [] then ""
    else if |path| == 1 then path[0]
    else path[0] + "/" + Join(path[1..])
  }

  predicate IsPath(path: seq<string>) {
    forall c :: c in path ==> IsName(c)
  }

  predicate SlashFree(path: seq<string>) {
    forall c :: c in path ==> '/' !in c
  }

  lemma {:induction false} JoinAppend(path: seq<string>, name: string)
    requires path != []
    ensures Join(path + [name]) == Join(path) + "/" + name
  {
    var q := path + [name];
    assert q[0] == path[0];
    if |path| == 1 {
      assert q[1..] == [name];
    } else {
      JoinAppend(path[1..], name);
      assert q[1..] == path[1..] + [name];
    }
  }

  /** The first component of a joined path ends at its first slash. */
  lemma FirstComponent(p: seq<string>, q: seq<string>, tail: string)
    requires SlashFree(p) && SlashFree(q) && p != [] && q != []
    requires Join(p) == Join(q) + tail && (tail == "" || tail[0] == '/')
    ensures p[0] == q[0]
  {
    var a, b := p[0], q[0];
    var s := Join(p);
    assert a in p && b in q;
    assert forall i :: 0 <= i < |a| ==> a[i] == s[i];
    assert forall i :: 0 <= i < |b| ==> b[i] == s[i];
    assert |p| > 1 ==> s[|a|] == '/';
    assert |q| > 1 || tail != "" ==> s[|b|] == '/';
    assert a == s[..|a|] && b == s[..|b|];
  }

  lemma JoinTail(head: string, x: string, y: string, tail: string)
    requires head + x == head + y + tail
    ensures x == y + tail
  {
    var s := head + x;
    assert s[|head|..] == x;
    assert s == head + (y + tail);
    assert s[|head|..] == y + tail;
  }

  lemma {:induction false} JoinSplit(p: seq<string>, q: seq<string>, tail: string)
    requires SlashFree(p) && SlashFree(q) && p != [] && q != []
    requires Join(p) == Join(q) + tail && (tail == "" || tail[0] == '/')
    ensures q <= p && (|p| == |q| <==> tail == "")
  {
    FirstComponent(p, q, tail);
    var a, s := p[0], Join(p);
    assert |p| > 1 ==> |s| > |a|;
    if |q| > 1 {
      assert |p| > 1;
      assert s == a + "/" + Join(p[1..]);
      assert Join(q) == a + "/" + Join(q[1..]);
      JoinTail(a + "/", Join(p[1..]), Join(q[1..]), tail);
      JoinSplit(p[1..], q[1..], tail);
      assert p == [a] + p[1..] && q == [a] + q[1..];
    }
  }

  /** `path == prefix or path.startswith(prefix + "/")` is exactly component prefix. */
  lemma {:induction false} JoinPrefix(p: seq<string>, q: seq<string>)
    requires SlashFree(p) && SlashFree(q) && p != [] && q != []
    ensures Join(p) == Join(q) <==> p == q
    ensures Join(p) == Join(q) || Join(q) + "/" <= Join(p) <==> q <= p
  {
    if Join(p) == Join(q) {
      JoinSplit(p, q, "");
    } else if Join(q) + "/" <= Join(p) {
      JoinSplit(p, q, Join(p)[|Join(q)|..]);
    }
    if q < p {
      JoinExtends(p, |q|);
      assert p[..|q|] == q;
    }
  }

  lemma {:induction false} JoinExtends(p: seq<string>, n: nat)
    requires 0 < n < |p|
    ensures Join(p[..n]) + "/" <= Join(p)
  {
    if n == 1 {
      assert Join(p[..n]) == p[0];
    } else {
      JoinExtends(p[1..], n - 1);
      assert p[..n][1..] == p[1..][..n - 1];
      assert Join(p[..n]) == p[0] + "/" + Join(p[1..][..n - 1]);
    }
  }
}
