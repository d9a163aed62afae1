/** The functions of posixpath that the mediator and the snapshot builder use, on strings. */
module PosixPath {

  predicate IsAbs(p: string) {
    |p| > 0 && p[0] == '/'
  }

  /** p.rfind('/') + 1 */
  function AfterLastSlash(p: string): (i: nat)
    ensures i <= |p|
    ensures i > 0 ==> p[i - 1] == '/'
    ensures forall k :: i <= k < |p| ==> p[k] != '/'
  {
    if |p| == 0 then 0
    else if p[|p| - 1] == '/' then |p|
    else AfterLastSlash(p[..|p| - 1])
  }

  predicate AllSlashes(p: string) {
    forall k :: 0 <= k < |p| ==> p[k] == '/'
  }

  /** p.rstrip('/') */
  function RStrip(p: string): (r: string)
    ensures r <= p && (|r| > 0 ==> r[|r| - 1] != '/')
    ensures forall k :: |r| <= k < |p| ==> p[k] == '/'
  {
    if |p| > 0 && p[|p| - 1] == '/' then RStrip(p[..|p| - 1]) else p
  }

  function Dirname(p: string): string {
    var head := p[..AfterLastSlash(p)];
    if |head| > 0 && !AllSlashes(head) then RStrip(head) else head
  }

  function Basename(p: string): string {
    p[AfterLastSlash(p)..]
  }

  /** Absolute, and not of the implementation-defined form "//...". */
  predicate SingleRooted(p: string) {
    IsAbs(p) && (|p| > 1 ==> p[1] != '/')
  }

  /** dirname is an absolute prefix that begins with two slashes if the path does, and a proper one
      unless the path is nothing but slashes. */
  lemma DirnameShortens(p: string)
    requires IsAbs(p)
    ensures IsAbs(Dirname(p)) && Dirname(p) <= p
    ensures SingleRooted(Dirname(p)) <==> SingleRooted(p)
    ensures Dirname(p) == p <==> AllSlashes(p)
  {
    var head := p[..AfterLastSlash(p)];
    if !AllSlashes(head) {
      assert exists k :: 0 <= k < |head| && head[k] != '/';
    } else if !AllSlashes(p) {
      assert head != p;
    }
  }

  /** On a path of the form "//...", dirname never gets to "/": following it does not end. */
  lemma DoubleSlashIsStuck(p: string)
    requires |p| > 1 && p[0] == '/' && p[1] == '/'
    ensures |Dirname(p)| > 1 && Dirname(p)[0] == '/' && Dirname(p)[1] == '/'
  {
  }

  /** dirname, n times. */
  function DirnameTimes(p: string, n: nat): string
    decreases n
  {
    if n == 0 then p else DirnameTimes(Dirname(p), n - 1)
  }

  lemma {:induction false} StuckForever(p: string, n: nat)
    requires |p| > 1 && p[0] == '/' && p[1] == '/'
    ensures DirnameTimes(p, n) != "/"
    decreases n
  {
    if n > 0 {
      DoubleSlashIsStuck(p);
      StuckForever(Dirname(p), n - 1);
    }
  }

  lemma {:induction false} RootIsReached(p: string) returns (n: nat)
    requires SingleRooted(p)
    ensures DirnameTimes(p, n) == "/"
    decreases |p|
  {
    DirnameShortens(p);
    if p == "/" {
      n := 0;
    } else {
      var k := RootIsReached(Dirname(p));
      n := k + 1;
    }
  }

  /** Following dirname from an absolute path gets to "/" exactly if the path is not of the form "//...". */
  lemma RootIsReachedIff(p: string)
    requires IsAbs(p)
    ensures (exists n: nat :: DirnameTimes(p, n) == "/") <==> SingleRooted(p)
  {
    if SingleRooted(p) {
      var n := RootIsReached(p);
    } else {
      forall n: nat
        ensures DirnameTimes(p, n) != "/"
      {
        StuckForever(p, n);
      }
    }
  }

  /** The folders that the builder adds for p: dirname, again and again, up to but without "/". */
  function Parents(p: string): (ds: seq<string>)
    requires SingleRooted(p)
    ensures forall k :: 0 <= k < |ds| ==> SingleRooted(ds[k])
    decreases |p|
  {
    DirnameShortens(p);
    if Dirname(p) == "/" then [] else [Dirname(p)] + Parents(Dirname(p))
  }

  // ---------- Order of strings, as list.sort compares them ----------

  predicate LexLeq(a: string, b: string) {
    if |a| == 0 then true
    else if |b| == 0 then false
    else if a[0] != b[0] then a[0] < b[0]
    else LexLeq(a[1..], b[1..])
  }

  lemma {:induction false} LexTotal(a: string, b: string)
    ensures LexLeq(a, b) || LexLeq(b, a)
  {
    if |a| > 0 && |b| > 0 && a[0] == b[0] {
      LexTotal(a[1..], b[1..]);
    }
  }

  lemma {:induction false} LexAntisymmetric(a: string, b: string)
    requires LexLeq(a, b) && LexLeq(b, a)
    ensures a == b
  {
    if |a| > 0 && |b| > 0 {
      LexAntisymmetric(a[1..], b[1..]);
      assert a == [a[0]] + a[1..] && b == [b[0]] + b[1..];
    }
  }

  lemma {:induction false} LexTransitive(a: string, b: string, c: string)
    requires LexLeq(a, b) && LexLeq(b, c)
    ensures LexLeq(a, c)
  {
    if |a| > 0 && |b| > 0 && |c| > 0 && a[0] == b[0] == c[0] {
      LexTransitive(a[1..], b[1..], c[1..]);
    }
  }

  lemma {:induction false} PrefixIsLexLeq(a: string, b: string)
    requires a <= b
    ensures LexLeq(a, b)
  {
    if |a| > 0 {
      PrefixIsLexLeq(a[1..], b[1..]);
    }
  }
}
