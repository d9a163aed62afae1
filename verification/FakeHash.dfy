/** calc_fake_meta_hash of mediator/translator.py, and translate_mode of mediator/builder.py: why a
    fake hash changes exactly when the metadata does. */
module FakeHash {
  import opened Context

  // ---------- str(n) ----------

  function Digit(d: nat): char
    requires d < 10
  {
    '0' + d as char
  }

  function Digits(n: nat): (s: string)
    ensures |s| > 0 && forall k :: 0 <= k < |s| ==> '0' <= s[k] <= '9'
  {
    if n < 10 then [Digit(n)] else Digits(n / 10) + [Digit(n % 10)]
  }

  function Str(n: int): string {
    if n < 0 then "-" + Digits(-n) else Digits(n)
  }

  lemma {:induction false} DigitsInjective(a: nat, b: nat)
    requires Digits(a) == Digits(b)
    ensures a == b
  {
    assert Digits(a)[|Digits(a)| - 1] == Digits(b)[|Digits(b)| - 1];
    assert a % 10 == b % 10;
    if a >= 10 && b >= 10 {
      assert Digits(a / 10) == Digits(a)[..|Digits(a)| - 1];
      assert Digits(b / 10) == Digits(b)[..|Digits(b)| - 1];
      DigitsInjective(a / 10, b / 10);
    }
  }

  lemma StrInjective(a: int, b: int)
    requires Str(a) == Str(b)
    ensures a == b
  {
    assert Str(a)[0] == Str(b)[0];
    if a < 0 {
      assert Str(a)[0] == '-';
      assert b < 0;
      assert Str(a)[1..] == Digits(-a) && Str(b)[1..] == Digits(-b);
      DigitsInjective(-a, -b);
    } else {
      assert b >= 0;
      DigitsInjective(a, b);
    }
  }

  predicate NoUnderscore(s: string) {
    forall k :: 0 <= k < |s| ==> s[k] != '_'
  }

  /** Cutting at the first underscore is unambiguous. */
  lemma {:induction false} CutIsUnique(a: string, x: string, b: string, y: string)
    requires NoUnderscore(a) && NoUnderscore(b) && a + "_" + x == b + "_" + y
    ensures a == b && x == y
  {
    var s := a + "_" + x;
    assert s[|a|] == '_' && s[|b|] == '_';
    assert forall k :: 0 <= k < |a| ==> s[k] == a[k];
    assert forall k :: 0 <= k < |b| ==> s[k] == b[k];
    assert a == s[..|a|] && b == s[..|b|];
    assert x == s[|a| + 1..] && y == s[|b| + 1..];
  }

  // ---------- The encoding ----------

  const MODE_BITS: nat := 4096

  /** S_IMODE: the low twelve bits, also of a negative number. */
  function SIMode(mode: int): nat {
    mode % MODE_BITS
  }

  /** calc_fake_meta_hash where owner, group and mode are known, as they are for every successful call. */
  function Fake(uid: int, gid: int, perms: int): Hash {
    "fake_" + (Str(uid) + "_" + (Str(gid) + "_" + Str(SIMode(perms))))
  }

  predicate IsHashFake(h: Hash) {
    |h| >= 4 && h[..4] == "fake"
  }

  lemma FakesAreFake(uid: int, gid: int, perms: int)
    ensures IsHashFake(Fake(uid, gid, perms)) && Fake(uid, gid, perms) != ""
  {
  }

  /** A fake hash determines the owner, the group and the twelve mode bits. */
  lemma FakeIsInjective(uid: int, gid: int, perms: int, uid': int, gid': int, perms': int)
    ensures Fake(uid, gid, perms) == Fake(uid', gid', perms') <==>
      uid == uid' && gid == gid' && SIMode(perms) == SIMode(perms')
  {
    if Fake(uid, gid, perms) == Fake(uid', gid', perms') {
      var x, x' := Str(gid) + "_" + Str(SIMode(perms)), Str(gid') + "_" + Str(SIMode(perms'));
      assert Fake(uid, gid, perms)[5..] == Str(uid) + "_" + x;
      assert Fake(uid', gid', perms')[5..] == Str(uid') + "_" + x';
      CutIsUnique(Str(uid), x, Str(uid'), x');
      CutIsUnique(Str(gid), Str(SIMode(perms)), Str(gid'), Str(SIMode(perms')));
      StrInjective(uid, uid');
      StrInjective(gid, gid');
      StrInjective(SIMode(perms), SIMode(perms'));
    }
  }

  // ---------- translate_mode ----------

  /** Bit k of n. */
  function Bit(n: nat, k: nat): bool {
    if k == 0 then n % 2 == 1 else Bit(n / 2, k - 1)
  }

  /** The position of a permission in a Unix mode (mediator/enums.py). */
  function BitOf(p: Permission): nat {
    match p
    case OEXECUTE => 0 case OWRITE => 1 case OREAD => 2
    case GEXECUTE => 3 case GWRITE => 4 case GREAD => 5
    case UEXECUTE => 6 case UWRITE => 7 case UREAD => 8
    case STICKY_BIT => 9 case SET_GID => 10 case SET_UID => 11
  }

  const ALL_PERMISSIONS := USER_PERMISSIONS + GROUP_PERMISSIONS + OTHER_PERMISSIONS + FILE_MODES

  function TranslateMode(mode: int): set<Permission> {
    set p | p in ALL_PERMISSIONS && Bit(SIMode(mode), BitOf(p))
  }

  function Pow2(n: nat): nat {
    if n == 0 then 1 else 2 * Pow2(n - 1)
  }

  lemma {:induction false} BitsDetermine(a: nat, b: nat, n: nat)
    requires a < Pow2(n) && b < Pow2(n) && forall k :: 0 <= k < n ==> Bit(a, k) == Bit(b, k)
    ensures a == b
  {
    if n > 0 {
      assert Bit(a, 0) == Bit(b, 0);
      forall k | 0 <= k < n - 1
        ensures Bit(a / 2, k) == Bit(b / 2, k)
      {
        assert Bit(a, k + 1) == Bit(b, k + 1);
      }
      BitsDetermine(a / 2, b / 2, n - 1);
    }
  }

  function PermissionAt(k: nat): (p: Permission)
    requires k < 12
    ensures BitOf(p) == k && p in ALL_PERMISSIONS
  {
    [OEXECUTE, OWRITE, OREAD, GEXECUTE, GWRITE, GREAD, UEXECUTE, UWRITE, UREAD, STICKY_BIT, SET_GID, SET_UID][k]
  }

  /** The set of permissions determines the twelve bits, and the other way round. */
  lemma TranslateModeIsInjective(mode: int, mode': int)
    ensures TranslateMode(mode) == TranslateMode(mode') <==> SIMode(mode) == SIMode(mode')
  {
    if TranslateMode(mode) == TranslateMode(mode') {
      forall k: nat | k < 12
        ensures Bit(SIMode(mode), k) == Bit(SIMode(mode'), k)
      {
        var p := PermissionAt(k);
        assert p in TranslateMode(mode) <==> p in TranslateMode(mode');
      }
      Pow2Of12();
      BitsDetermine(SIMode(mode), SIMode(mode'), 12);
    }
  }

  lemma Pow2Of12()
    ensures Pow2(12) == 4096
  {
  }

  /** For a file whose stored hash is fake and current, the guard that chmod and fchmod put on the
      hash holds: the permissions stay the same exactly if the hash does. */
  lemma FakeHashFollowsPerms(uid: int, gid: int, mode: int, perms: int)
    ensures TranslateMode(mode) == TranslateMode(perms) <==> Fake(uid, gid, mode) == Fake(uid, gid, perms)
  {
    TranslateModeIsInjective(mode, perms);
    FakeIsInjective(uid, gid, mode, uid, gid, perms);
  }

  /** The guard that chown and fchown put on the hash, on a fake hash: it holds exactly if owner or
      group change or the mode stays. A chown to the same owner that clears a set-id bit breaks it. */
  lemma FakeHashFollowsOwnerIff(uid: int, gid: int, mode: int, owner: int, group: int, perms: int)
    ensures ((uid == owner && gid == group) <==> Fake(uid, gid, mode) == Fake(owner, group, perms))
      <==> (uid == owner && gid == group ==> TranslateMode(mode) == TranslateMode(perms))
  {
    TranslateModeIsInjective(mode, perms);
    FakeIsInjective(uid, gid, mode, owner, group, perms);
  }
}
