/**
 * The rotating file sink of the desktop log tee over a file system in which every operation may fail.
 *
 * File name 0 is the log file, name i is `<file>.<i>`.
 */
module RotatingLog {
  import opened Wrappers

  type Byte = b: int | 0 <= b < 256

  /** `started` records that the file was created, empty, by an open of this process. */
  datatype File = File(bytes: seq<Byte>, started: bool)

  type Disk = map<nat, File>

  /**
   * Which operations of one call succeed: `existsOk(i)` is false when the existence test of name i fails, which answers
   * "no".
   */
  datatype Luck = Luck(removeOk: bool, existsOk: nat -> bool, renameOk: nat -> bool, mkdirOk: bool, openOk: bool,
    statOk: bool)

  function Max(a: int, b: int): int { if a < b then b else a }

  // ---------- What a rotation does to the disk ----------

  function Move(d: Disk, from: nat, to: nat): Disk
    requires from in d && from != to
  {
    (d - {from})[to := d[from]]
  }

  datatype Shifted = Shifted(disk: Disk, threw: bool)

  /** The renames i -> i+1, .., 1 -> 2; the first one to fail ends them. */
  function Shift(d: Disk, i: nat, luck: Luck): Shifted
    decreases i
  {
    if i == 0 then Shifted(d, false)
    else if !(i in d && luck.existsOk(i)) then Shift(d, i - 1, luck)
    else if luck.renameOk(i) then Shift(Move(d, i, i + 1), i - 1, luck)
    else Shifted(d, true)
  }

  /** Drops the oldest file, shifts the others and moves the log file to `.1`. */
  function Rotated(d: Disk, keep: nat, luck: Luck): Disk
    requires 1 <= keep
  {
    if !luck.removeOk then d
    else
      var shifted := Shift(d - {keep}, keep - 1, luck);
      if !shifted.threw && 0 in shifted.disk && luck.renameOk(0) then Move(shifted.disk, 0, 1) else shifted.disk
  }

  // ---------- Where every file goes ----------

  function FileAt(d: Disk, n: nat): Option<File> {
    if n in d then Some(d[n]) else None
  }

  /**
   * A file of name i, reached by the rotation, is renamed to i + 1; the log file is renamed without an existence test.
   */
  predicate Climbs(luck: Luck, i: nat) {
    luck.renameOk(i) && (i > 0 ==> luck.existsOk(i))
  }

  /** A file of name k ends the rotation: nothing below it moves. */
  predicate Blocks(luck: Luck, k: nat) {
    luck.existsOk(k) && !luck.renameOk(k)
  }

  /** File n, of the names from `low` up to `end`, is renamed: no file above it ends the rotation first. */
  ghost predicate MovesUp(d: Disk, low: nat, end: nat, luck: Luck, n: nat) {
    low <= n < end && n in d && Climbs(luck, n) && forall b: nat :: n < b < end && b in d ==> !Blocks(luck, b)
  }

  /** What name m holds after the renames: the file from below, or its own if that is not renamed. */
  ghost function Landing(d: Disk, low: nat, end: nat, luck: Luck, m: nat): Option<File> {
    if m > 0 && MovesUp(d, low, end, luck, m - 1) then FileAt(d, m - 1)
    else if MovesUp(d, low, end, luck, m) then None
    else FileAt(d, m)
  }

  lemma {:induction false} ShiftLands(d: Disk, i: nat, luck: Luck, m: nat)
    ensures FileAt(Shift(d, i, luck).disk, m) == Landing(d, 1, i + 1, luck, m)
    ensures Shift(d, i, luck).threw <==> exists b: nat :: 1 <= b <= i && b in d && Blocks(luck, b)
    decreases i
  {
    if i > 0 {
      if !(i in d && luck.existsOk(i)) {
        ShiftLands(d, i - 1, luck, m);
      } else if luck.renameOk(i) {
        ShiftLands(Move(d, i, i + 1), i - 1, luck, m);
        SameBelow(d, i, luck);
      }
    }
  }

  /** Moving file i up changes nothing about the names below it. */
  lemma SameBelow(d: Disk, i: nat, luck: Luck)
    requires i in d && Climbs(luck, i) && i > 0
    ensures var e := Move(d, i, i + 1);
            && (forall n: nat :: MovesUp(e, 1, i, luck, n) <==> n < i && MovesUp(d, 1, i + 1, luck, n))
            && MovesUp(d, 1, i + 1, luck, i)
  {
  }

  /** After the removal, what every name holds, whatever fails. */
  lemma WhereFilesGo(d: Disk, keep: nat, luck: Luck, m: nat)
    requires 1 <= keep && luck.removeOk
    ensures FileAt(Rotated(d, keep, luck), m) == Landing(d - {keep}, 0, keep, luck, m)
  {
    var e := d - {keep};
    ShiftLands(e, keep - 1, luck, m);
    ShiftLands(e, keep - 1, luck, 0);
    var s := Shift(e, keep - 1, luck);
    if s.threw {
      var b: nat :| 1 <= b <= keep - 1 && b in e && Blocks(luck, b);
    }
  }

  /** There is a log file, and its rename fails or something fails before it. */
  ghost predicate LogStays(d: Disk, keep: nat, luck: Luck) {
    0 in d && (!luck.removeOk || !luck.renameOk(0) || exists b: nat :: 1 <= b < keep && b in d && Blocks(luck, b))
  }

  lemma WhenTheLogStays(d: Disk, keep: nat, luck: Luck)
    requires 1 <= keep
    ensures 0 in Rotated(d, keep, luck) <==> LogStays(d, keep, luck)
    ensures LogStays(d, keep, luck) ==> Rotated(d, keep, luck)[0] == d[0]
  {
    if luck.removeOk {
      WhereFilesGo(d, keep, luck, 0);
      hide Rotated;
      assert 0 in Rotated(d, keep, luck) <==> FileAt(Rotated(d, keep, luck), 0).Some?;
    }
  }

  /** Nothing fails. */
  predicate AllWell(luck: Luck, keep: nat) {
    luck.removeOk && luck.renameOk(0) && forall i: nat :: 1 <= i < keep ==> luck.existsOk(i) && luck.renameOk(i)
  }

  /** Every file but the oldest is under the next name. */
  ghost predicate MovedUp(d: Disk, e: Disk, keep: nat) {
    forall n: nat :: n < keep ==> FileAt(e, n + 1) == FileAt(d, n)
  }

  /** A rotation in which nothing fails moves every file but the oldest up by one, and leaves no log file. */
  lemma WhenAllIsWell(d: Disk, keep: nat, luck: Luck)
    requires 1 <= keep && AllWell(luck, keep)
    ensures MovedUp(d, Rotated(d, keep, luck), keep) && 0 !in Rotated(d, keep, luck)
  {
    WhenTheLogStays(d, keep, luck);
    forall n: nat | n < keep ensures FileAt(Rotated(d, keep, luck), n + 1) == FileAt(d, n) {
      WhereFilesGo(d, keep, luck, n + 1);
      hide Rotated;
    }
  }

  // ---------- The log is what the files say, oldest first ----------

  function Content(d: Disk, n: nat): seq<Byte> {
    if n in d then d[n].bytes else []
  }

  /** The contents of names k, .., 1, 0 in this order. */
  function Joined(d: Disk, k: nat): seq<Byte> {
    if k == 0 then Content(d, 0) else Content(d, k) + Joined(d, k - 1)
  }

  predicate IsSuffix(a: seq<Byte>, b: seq<Byte>) {
    |a| <= |b| && a == b[|b| - |a|..]
  }

  lemma {:induction false} JoinedFrame(d: Disk, e: Disk, k: nat)
    requires forall n: nat :: n <= k ==> Content(d, n) == Content(e, n)
    ensures Joined(d, k) == Joined(e, k)
  {
    if k > 0 { JoinedFrame(d, e, k - 1); }
  }

  /** Moving a file to the free name above it keeps the order of the log. */
  lemma {:induction false} MoveKeepsLog(d: Disk, i: nat, k: nat)
    requires i in d && i + 1 !in d && i < k
    ensures Joined(Move(d, i, i + 1), k) == Joined(d, k)
  {
    var e := Move(d, i, i + 1);
    if k == i + 1 {
      if i > 0 { JoinedFrame(d, e, i - 1); }
      assert Content(d, k) == [] && Content(e, i) == [];
      assert Content(e, k) == Content(d, i);
    } else {
      MoveKeepsLog(d, i, k - 1);
    }
  }

  // ---------- What a rotation may lose ----------

  /** A file of name j is taken for absent and the one below it is renamed over it. */
  predicate Overwrites(luck: Luck, j: nat) {
    j > 0 && !luck.existsOk(j) && Climbs(luck, j - 1)
  }

  /** No file is overwritten while an older one may survive it. */
  predicate Safe(luck: Luck, keep: nat) {
    luck.removeOk ==> forall j: nat, k: nat :: j < k < keep && Overwrites(luck, j) ==> Blocks(luck, k)
  }

  /** No file is overwritten. */
  predicate Lossless(luck: Luck, keep: nat) {
    luck.removeOk ==> forall j: nat :: j < keep ==> !Overwrites(luck, j)
  }

  /** Existence tests answer truthfully for the names a rotation asks about. */
  predicate Honest(luck: Luck, keep: nat) {
    forall i: nat :: 1 <= i < keep ==> luck.existsOk(i)
  }

  lemma HonestRotationsAreLossless(luck: Luck, keep: nat)
    ensures Honest(luck, keep) ==> Lossless(luck, keep)
    ensures Lossless(luck, keep) ==> Safe(luck, keep)
    ensures keep <= 2 ==> Safe(luck, keep)
  {
  }

  /** How the names above i came to be: left standing, or moved up. */
  ghost predicate Processed(d: Disk, i: nat, keep: nat, luck: Luck) {
    forall n :: n in d && i < n <= keep ==> (n < keep && !luck.existsOk(n)) || (n - 1 > i && Climbs(luck, n - 1))
  }

  lemma {:induction false} NothingAbove(d: Disk, i: nat, k: nat)
    requires i <= k && forall n :: n in d && n <= k ==> n <= i
    ensures Joined(d, k) == Joined(d, i)
  {
    if i < k { NothingAbove(d, i, k - 1); }
  }

  /** A name above that was left standing or moved up did not end the rotation. */
  lemma Unblocked(luck: Luck, i: nat, n: nat, keep: nat) returns (k: nat)
    requires i + 1 < n <= keep && !luck.existsOk(i + 1)
    requires (n < keep && !luck.existsOk(n)) || (n - 1 > i && Climbs(luck, n - 1))
    ensures i + 1 < k < keep && !Blocks(luck, k)
  {
    k := if n < keep && !luck.existsOk(n) then n else n - 1;
  }

  /** One rename of the rotation keeps a suffix, and the whole log unless it overwrites. */
  lemma OneClimb(d: Disk, i: nat, keep: nat, luck: Luck)
    requires i < keep && i in d && Climbs(luck, i) && Processed(d, i, keep, luck) && luck.removeOk && Safe(luck, keep)
    ensures IsSuffix(Joined(Move(d, i, i + 1), keep), Joined(d, keep))
    ensures Lossless(luck, keep) ==> Joined(Move(d, i, i + 1), keep) == Joined(d, keep)
    ensures i > 0 ==> Processed(Move(d, i, i + 1), i - 1, keep, luck)
  {
    if i + 1 in d {
      assert Overwrites(luck, i + 1);
      forall n | n in d && n <= keep ensures n <= i + 1 {
        if n > i + 1 {
          var k := Unblocked(luck, i, n, keep);
          assert false;
        }
      }
      ClimbOntoTheOldest(d, i, keep);
    } else {
      MoveKeepsLog(d, i, keep);
    }
  }

  /** Renaming over the oldest file loses that file and nothing else. */
  lemma ClimbOntoTheOldest(d: Disk, i: nat, keep: nat)
    requires i < keep && i in d && forall n :: n in d && n <= keep ==> n <= i + 1
    ensures IsSuffix(Joined(Move(d, i, i + 1), keep), Joined(d, keep))
  {
    var e, bare := Move(d, i, i + 1), d - {i + 1};
    NothingAbove(d, i + 1, keep);
    JoinedFrame(bare, d, i);
    assert Joined(bare, i + 1) == Joined(d, i);
    NothingAbove(bare, i + 1, keep);
    MoveKeepsLog(bare, i, keep);
    assert Move(bare, i, i + 1) == e;
  }

  lemma {:induction false} ShiftKeepsSuffix(d: Disk, i: nat, keep: nat, luck: Luck)
    requires i < keep && Processed(d, i, keep, luck) && luck.removeOk && Safe(luck, keep)
    ensures var s := Shift(d, i, luck);
            && IsSuffix(Joined(s.disk, keep), Joined(d, keep))
            && (Lossless(luck, keep) ==> Joined(s.disk, keep) == Joined(d, keep))
            && (!s.threw ==> Processed(s.disk, 0, keep, luck))
    decreases i
  {
    hide Safe, Lossless, Joined, IsSuffix;
    SuffixOfItself(Joined(d, keep));
    if i > 0 {
      if !(i in d && luck.existsOk(i)) {
        ShiftKeepsSuffix(d, i - 1, keep, luck);
      } else if luck.renameOk(i) {
        var e := Move(d, i, i + 1);
        OneClimb(d, i, keep, luck);
        ShiftKeepsSuffix(e, i - 1, keep, luck);
        SuffixOfSuffix(Joined(Shift(e, i - 1, luck).disk, keep), Joined(e, keep), Joined(d, keep));
      }
    }
  }

  /** Names beyond the oldest are as they were. */
  ghost predicate SameBeyond(d: Disk, e: Disk, keep: nat) {
    forall n :: keep < n ==> (n in e <==> n in d) && (n in d ==> e[n] == d[n])
  }

  lemma {:induction false} ShiftStaysBelow(d: Disk, i: nat, keep: nat, luck: Luck)
    requires i < keep
    ensures SameBeyond(d, Shift(d, i, luck).disk, keep)
    decreases i
  {
    if i > 0 {
      if !(i in d && luck.existsOk(i)) {
        ShiftStaysBelow(d, i - 1, keep, luck);
      } else if luck.renameOk(i) {
        ShiftStaysBelow(Move(d, i, i + 1), i - 1, keep, luck);
      }
    }
  }

  lemma DropIsSuffix(d: Disk, keep: nat)
    requires 1 <= keep
    ensures Joined(d - {keep}, keep) == Joined(d, keep - 1) && IsSuffix(Joined(d, keep - 1), Joined(d, keep))
  {
    JoinedFrame(d - {keep}, d, keep - 1);
  }

  /** A safe rotation leaves a suffix of the log; a lossless one loses the oldest file and nothing else. */
  lemma SafeRotationKeepsASuffix(d: Disk, keep: nat, luck: Luck)
    requires 1 <= keep && Safe(luck, keep)
    ensures IsSuffix(Joined(Rotated(d, keep, luck), keep), Joined(d, keep))
    ensures Lossless(luck, keep) ==>
              Joined(Rotated(d, keep, luck), keep) == if luck.removeOk then Joined(d, keep - 1) else Joined(d, keep)
  {
    hide Safe, Lossless, Joined, IsSuffix, Shift;
    SuffixOfItself(Joined(d, keep));
    if luck.removeOk {
      var e := d - {keep};
      DropIsSuffix(d, keep);
      assert Processed(e, keep - 1, keep, luck);
      ShiftKeepsSuffix(e, keep - 1, keep, luck);
      var s := Shift(e, keep - 1, luck);
      SuffixOfSuffix(Joined(s.disk, keep), Joined(e, keep), Joined(d, keep));
      if !s.threw && 0 in s.disk && luck.renameOk(0) {
        OneClimb(s.disk, 0, keep, luck);
        SuffixOfSuffix(Joined(Move(s.disk, 0, 1), keep), Joined(s.disk, keep), Joined(d, keep));
      }
    }
  }

  /** Whatever fails, files beyond the oldest are left alone. */
  lemma RotationStaysBelow(d: Disk, keep: nat, luck: Luck)
    requires 1 <= keep
    ensures SameBeyond(d, Rotated(d, keep, luck), keep) && SameBeyond(d, Opened(Rotated(d, keep, luck), luck), keep)
  {
    ShiftStaysBelow(d - {keep}, keep - 1, keep, luck);
  }

  lemma SameAsItself(d: Disk, keep: nat)
    ensures SameBeyond(d, d, keep)
  {
  }

  lemma LogWriteStaysBelow(d: Disk, e: Disk, file: File, keep: nat)
    requires SameBeyond(d, e, keep)
    ensures SameBeyond(d, e[0 := file], keep)
  {
  }

  // ---------- Luck that is not safe, or not lossless, loses something on some disk ----------

  /** A disk with one byte under each of the names j and j - 1. */
  function TwoFiles(j: nat): Disk
    requires 1 <= j
  {
    map[j := File([1], false), j - 1 := File([2], false)]
  }

  lemma {:induction false} ShiftSkipsAbsent(d: Disk, i: nat, k: nat, luck: Luck)
    requires k <= i && forall n :: k < n <= i ==> n !in d
    ensures Shift(d, i, luck) == Shift(d, k, luck)
    decreases i
  {
    if k < i { ShiftSkipsAbsent(d, i - 1, k, luck); }
  }

  /** The rest of a rotation that has come down to name j on a disk whose only names up to j are j and j - 1. */
  lemma RestOverwrites(d: Disk, j: nat, luck: Luck)
    requires j in d && Overwrites(luck, j) && j - 1 in d && forall n :: n in d && n < j ==> n == j - 1
    ensures var s := Shift(d, j, luck);
            !s.threw && s.disk == if j == 1 then d else Move(d, j - 1, j)
  {
    assert Shift(d, j, luck) == Shift(d, j - 1, luck);
    if j > 1 {
      var e := Move(d, j - 1, j);
      assert Shift(d, j - 1, luck) == Shift(e, j - 2, luck);
      ShiftSkipsAbsent(e, j - 2, 0, luck);
    }
  }

  lemma {:induction false} JoinedOfNone(d: Disk, k: nat)
    requires forall n :: n in d ==> n > k
    ensures Joined(d, k) == []
  {
    if k > 0 { JoinedOfNone(d, k - 1); }
  }

  /** The log of a disk whose names up to k are n and at most those up to m < n. */
  lemma {:induction false} JoinedFrom(d: Disk, k: nat, n: nat, m: nat)
    requires m < n <= k && forall i :: i in d && i <= k ==> i == n || i <= m
    ensures Joined(d, k) == Content(d, n) + Joined(d, m)
  {
    if k > n {
      JoinedFrom(d, k - 1, n, m);
    } else {
      NothingAbove(d, m, n - 1);
    }
  }

  lemma JoinedOfLast(d: Disk, m: nat)
    requires forall i :: i in d && i <= m ==> i == m
    ensures Joined(d, m) == Content(d, m)
  {
    if m > 0 { JoinedOfNone(map i | i in d && i >= m :: d[i], m - 1); JoinedFrame(d, map i | i in d
      && i >= m :: d[i], m - 1); }
  }

  /** A failed existence test of name j makes the rename of j - 1 overwrite a file that should have been kept. */
  lemma DishonestRotationOverwrites(keep: nat, j: nat, luck: Luck)
    requires j < keep && luck.removeOk && Overwrites(luck, j)
    ensures Joined(TwoFiles(j), keep - 1) == [1, 2] && Joined(Rotated(TwoFiles(j), keep, luck), keep) == [2]
  {
    var d := TwoFiles(j);
    assert d - {keep} == d;
    ShiftSkipsAbsent(d, keep - 1, j, luck);
    RestOverwrites(d, j, luck);
    var e := Move(d, j - 1, j);
    assert Rotated(d, keep, luck) == e;
    assert e == map[j := File([2], false)];
    NothingAbove(e, j, keep);
    JoinedOfLast(e, j);
    JoinedFrom(d, keep - 1, j, j - 1);
    JoinedOfLast(d, j - 1);
  }

  /** A disk with one byte under each of the names k, j and j - 1. */
  function ThreeFiles(k: nat, j: nat): Disk
    requires 1 <= j < k
  {
    map[k := File([0], false), j := File([1], false), j - 1 := File([2], false)]
  }

  /** The overwritten file leaves a gap in the log when an older one survives it, moved up or left standing. */
  lemma OlderFileSurvives(keep: nat, k: nat, j: nat, luck: Luck)
    requires 1 <= j < k < keep && luck.removeOk && Overwrites(luck, j) && !Blocks(luck, k)
    ensures Joined(ThreeFiles(k, j), keep) == [0, 1, 2] && Joined(Rotated(ThreeFiles(k, j), keep, luck), keep) == [0, 2]
  {
    var d := ThreeFiles(k, j);
    var n := if luck.existsOk(k) then k + 1 else k;
    var r: Disk := map[n := File([0], false), j := File([2], false)];
    JoinedOfThree(d, keep, k, j);
    GapInTheMiddle(keep, k, j, luck);
    JoinedFrom(r, keep, n, j);
    JoinedOfLast(r, j);
    hide Rotated;
  }

  lemma GapInTheMiddle(keep: nat, k: nat, j: nat, luck: Luck)
    requires 1 <= j < k < keep && luck.removeOk && Overwrites(luck, j) && !Blocks(luck, k)
    ensures Rotated(ThreeFiles(k, j), keep, luck) ==
      map[if luck.existsOk(k) then k + 1 else k := File([0], false), j := File([2], false)]
  {
    hide Shift, Blocks;
    var d := ThreeFiles(k, j);
    var n := if luck.existsOk(k) then k + 1 else k;
    var e: Disk := map[n := File([0], false), j := File([1], false), j - 1 := File([2], false)];
    assert d - {keep} == d;
    ShiftSkipsAbsent(d, keep - 1, k, luck);
    OlderFileStands(k, j, luck);
    ShiftSkipsAbsent(e, k - 1, j, luck);
    RestOverwrites(e, j, luck);
    assert Move(e, j - 1, j) == map[n := File([0], false), j := File([2], false)];
  }

  lemma JoinedOfThree(d: Disk, keep: nat, k: nat, j: nat)
    requires 1 <= j < k < keep && d == ThreeFiles(k, j)
    ensures Joined(d, keep) == [0, 1, 2]
  {
    JoinedFrom(d, keep, k, j);
    JoinedFrom(d, j, j, j - 1);
    JoinedOfLast(d, j - 1);
  }

  lemma OlderFileStands(k: nat, j: nat, luck: Luck)
    requires 1 <= j < k && !Blocks(luck, k)
    ensures var n := if luck.existsOk(k) then k + 1 else k;
            var e: Disk := map[n := File([0], false), j := File([1], false), j - 1 := File([2], false)];
            Shift(ThreeFiles(k, j), k, luck) == Shift(e, k - 1, luck)
  {
    var d := ThreeFiles(k, j);
    var n := if luck.existsOk(k) then k + 1 else k;
    var e: Disk := map[n := File([0], false), j := File([1], false), j - 1 := File([2], false)];
    assert e == if luck.existsOk(k) then Move(d, k, k + 1) else d;
  }

  /** A rotation keeps a suffix of the log on every disk if and only if its luck is safe. */
  lemma SafetyIsExact(keep: nat, luck: Luck)
    requires 1 <= keep
    ensures Safe(luck, keep) <==> forall d: Disk :: IsSuffix(Joined(Rotated(d, keep, luck), keep), Joined(d, keep))
  {
    if Safe(luck, keep) {
      forall d: Disk ensures IsSuffix(Joined(Rotated(d, keep, luck), keep), Joined(d, keep)) {
        SafeRotationKeepsASuffix(d, keep, luck);
      }
    } else {
      var j: nat, k: nat :| j < k < keep && Overwrites(luck, j) && !Blocks(luck, k);
      OlderFileSurvives(keep, k, j, luck);
      assert !IsSuffix([0, 2], [0, 1, 2]) by { assert [0, 1, 2][1..][0] == 1; }
    }
    hide *;
  }

  /** A rotation loses the oldest file and nothing else on every disk if and only if its luck is lossless. */
  lemma LosslessIsExact(keep: nat, luck: Luck)
    requires 1 <= keep
    ensures Lossless(luck, keep) <==>
      forall d: Disk :: Joined(Rotated(d, keep, luck), keep) ==
        if luck.removeOk then Joined(d, keep - 1) else Joined(d, keep)
  {
    if Lossless(luck, keep) {
      HonestRotationsAreLossless(luck, keep);
      forall d: Disk ensures Joined(Rotated(d, keep, luck), keep) ==
        if luck.removeOk then Joined(d, keep - 1) else Joined(d, keep) {
        SafeRotationKeepsASuffix(d, keep, luck);
      }
    } else {
      var j: nat :| j < keep && Overwrites(luck, j);
      DishonestRotationOverwrites(keep, j, luck);
    }
    hide *;
  }

  lemma SuffixOfItself(a: seq<Byte>)
    ensures IsSuffix(a, a)
  {
  }

  /** The open creates the log file when it is missing. */
  function Opened(d: Disk, luck: Luck): Disk {
    if luck.mkdirOk && luck.openOk && 0 !in d then d[0 := File([], true)] else d
  }

  /**
   * A rotation and the open after it, file by file: where each went, when the log file stayed, and the empty one that
   * takes its place. With nothing failing every file but the oldest is under the next name.
   */
  ghost predicate RolledOver(d: Disk, e: Disk, keep: nat, luck: Luck) {
    && (forall m: nat :: 1 <= m ==>
         FileAt(e, m) == if luck.removeOk then Landing(d - {keep}, 0, keep, luck, m) else FileAt(d, m))
    && FileAt(e, 0) == (if LogStays(d, keep, luck) then FileAt(d, 0)
                        else if luck.mkdirOk && luck.openOk then Some(File([], true)) else None)
    && (AllWell(luck, keep) ==> MovedUp(d, e, keep) && !LogStays(d, keep, luck))
  }

  lemma RotationRollsOver(d: Disk, keep: nat, luck: Luck)
    requires 1 <= keep
    ensures RolledOver(d, Opened(Rotated(d, keep, luck), luck), keep, luck)
    ensures 0 in Rotated(d, keep, luck) <==> LogStays(d, keep, luck)
  {
    WhenTheLogStays(d, keep, luck);
    var r := Rotated(d, keep, luck);
    var e := Opened(r, luck);
    forall m: nat | 1 <= m ensures FileAt(e, m) ==
      if luck.removeOk then Landing(d - {keep}, 0, keep, luck, m) else FileAt(d, m) {
      if luck.removeOk { WhereFilesGo(d, keep, luck, m); }
      hide Landing;
    }
    if AllWell(luck, keep) { WhenAllIsWell(d, keep, luck); }
    hide Rotated, LogStays, Landing;
  }

  lemma OpeningKeepsLog(d: Disk, k: nat, luck: Luck)
    ensures Joined(Opened(d, luck), k) == Joined(d, k)
  {
    JoinedFrame(Opened(d, luck), d, k);
  }

  lemma {:induction false} AppendExtendsLog(d: Disk, k: nat, bytes: seq<Byte>)
    requires 0 in d
    ensures Joined(d[0 := File(d[0].bytes + bytes, d[0].started)], k) == Joined(d, k) + bytes
  {
    if k > 0 {
      AppendExtendsLog(d, k - 1, bytes);
      assert Content(d, k) + (Joined(d, k - 1) + bytes) == Content(d, k) + Joined(d, k - 1) + bytes;
    }
  }

  lemma SuffixGrows(a: seq<Byte>, b: seq<Byte>, bytes: seq<Byte>)
    requires IsSuffix(a, b)
    ensures IsSuffix(a + bytes, b + bytes)
  {
    assert (b + bytes)[|b| - |a|..] == b[|b| - |a|..] + bytes;
  }

  lemma SuffixOfSuffix(a: seq<Byte>, b: seq<Byte>, c: seq<Byte>)
    requires IsSuffix(a, b) && IsSuffix(b, c)
    ensures IsSuffix(a, c)
  {
    assert c[|c| - |b|..][|b| - |a|..] == c[|c| - |a|..];
  }

  // ---------- Size bounds ----------

  /** Files started by this process stay within the limit or within one write; `size` never undercounts an open file. */
  ghost predicate Bounded(d: Disk, fd: bool, size: int, rotateAt: int, maxBytes: int, largest: int) {
    && (forall n :: n in d && d[n].started ==> |d[n].bytes| <= Max(maxBytes, largest))
    && (fd ==> 0 in d && |d[0].bytes| <= size)
    && (fd && d[0].started ==> rotateAt == maxBytes && size <= Max(maxBytes, largest))
  }

  ghost predicate StartedBounded(d: Disk, limit: int) {
    forall n :: n in d && d[n].started ==> |d[n].bytes| <= limit
  }

  lemma {:induction false} ShiftKeepsBound(d: Disk, i: nat, luck: Luck, limit: int)
    requires StartedBounded(d, limit)
    ensures StartedBounded(Shift(d, i, luck).disk, limit)
    decreases i
  {
    if i > 0 {
      if !(i in d && luck.existsOk(i)) {
        ShiftKeepsBound(d, i - 1, luck, limit);
      } else if luck.renameOk(i) {
        ShiftKeepsBound(Move(d, i, i + 1), i - 1, luck, limit);
      }
    }
  }

  lemma RotationKeepsBound(d: Disk, keep: nat, luck: Luck, limit: int)
    requires 1 <= keep && StartedBounded(d, limit)
    ensures StartedBounded(Rotated(d, keep, luck), limit)
  {
    ShiftKeepsBound(d - {keep}, keep - 1, luck, limit);
  }

  lemma RotationKeepsSuffix(d: Disk, keep: nat, luck: Luck, history: seq<Byte>)
    requires 1 <= keep
    ensures Safe(luck, keep) && IsSuffix(Joined(d, keep), history) ==>
              IsSuffix(Joined(Opened(Rotated(d, keep, luck), luck), keep), history)
    ensures 0 !in Rotated(d, keep, luck) && 0 in Opened(Rotated(d, keep, luck), luck) ==>
              Opened(Rotated(d, keep, luck), luck)[0] == File([], true)
  {
    if Safe(luck, keep) && IsSuffix(Joined(d, keep), history) {
      SafeRotationKeepsASuffix(d, keep, luck);
      SuffixOfSuffix(Joined(Rotated(d, keep, luck), keep), Joined(d, keep), history);
    }
    OpeningKeepsLog(Rotated(d, keep, luck), keep, luck);
  }

  /** After the log file has moved away, the new one is empty. */
  lemma FreshFileBounded(d: Disk, keep: nat, luck: Luck, fd: bool, size: int, rotateAt: int, maxBytes: int,
          largest: int)
    requires 1 <= keep && 1 <= maxBytes && 0 <= largest && StartedBounded(d, Max(maxBytes, largest))
    requires 0 !in Rotated(d, keep, luck)
    requires fd ==> luck.mkdirOk && luck.openOk && size == 0 && rotateAt == maxBytes
    ensures Bounded(Opened(Rotated(d, keep, luck), luck), fd, size, rotateAt, maxBytes, largest)
  {
    RotationKeepsBound(d, keep, luck, Max(maxBytes, largest));
    hide Rotated, Shift;
  }

  lemma LargerLimit(d: Disk, fd: bool, size: int, rotateAt: int, maxBytes: int, largest: int, length: int)
    requires 0 <= largest
    ensures Max(largest, length) >= length && Max(largest, length) >= 0
    ensures Bounded(d, fd, size, rotateAt, maxBytes, largest) ==>
              Bounded(d, fd, size, rotateAt, maxBytes, Max(largest, length))
  {
  }

  lemma AppendKeepsBound(d: Disk, size: int, rotateAt: int, maxBytes: int, largest: int, text: seq<Byte>, count: nat)
    requires Bounded(d, true, size, rotateAt, maxBytes, largest) && 0 <= size && count <= |text| <= largest
    requires size == 0 || size + |text| <= rotateAt
    ensures Bounded(d[0 := File(d[0].bytes + text[..count], d[0].started)], true, size + |text|, rotateAt, maxBytes,
              largest)
  {
  }

  // ---------- The sink ----------

  class FileSystem {
    var disk: Disk

    constructor (disk: Disk)
      ensures this.disk == disk
    {
      this.disk := disk;
    }

    method Remove(n: nat, ok: bool) returns (threw: bool)
      modifies this
      ensures threw == !ok && disk == if ok then old(disk) - {n} else old(disk)
    {
      if ok { disk := disk - {n}; }
      return !ok;
    }

    method Exists(n: nat, ok: bool) returns (there: bool)
      ensures there == (n in disk && ok)
    {
      return n in disk && ok;
    }

    method Rename(from: nat, to: nat, ok: bool) returns (threw: bool)
      requires from != to
      modifies this
      ensures threw == !(ok && from in old(disk))
      ensures disk == if threw then old(disk) else Move(old(disk), from, to)
    {
      threw := !(ok && from in disk);
      if !threw { disk := Move(disk, from, to); }
    }

    method OpenAppend(luck: Luck) returns (threw: bool)
      modifies this
      ensures threw == !(luck.mkdirOk && luck.openOk) && disk == Opened(old(disk), luck)
      ensures !threw ==> 0 in disk
    {
      threw := !(luck.mkdirOk && luck.openOk);
      if !threw && 0 !in disk { disk := disk[0 := File([], true)]; }
    }

    /** A write may be short; a failed one writes nothing. */
    method Append(bytes: seq<Byte>, ok: bool, count: nat) returns (threw: bool)
      requires 0 in disk && count <= |bytes|
      modifies this
      ensures threw == !ok
      ensures disk == if ok then old(disk)[0 := File(old(disk)[0].bytes + bytes[..count], old(disk)[0].started)]
                else old(disk)
    {
      if ok { disk := disk[0 := File(disk[0].bytes + bytes[..count], disk[0].started)]; }
      return !ok;
    }
  }

  class RotatingFileSink {
    const fs: FileSystem
    const maxBytes: int
    const keep: nat
    var fd: bool
    var size: int
    var rotateAt: int
    /** Everything the log held at the start and everything written since. */
    ghost var history: seq<Byte>
    /** The longest text given to a write. */
    ghost var largest: int
    /** Every rotation so far was safe. */
    ghost var safe: bool
    /** Every rotation so far has moved the log file away. */
    ghost var smooth: bool

    ghost predicate Valid()
      reads this, fs
    {
      && 1 <= keep && 1 <= maxBytes && 0 <= size && 0 <= largest
      && (fd ==> 0 in fs.disk)
      && (safe ==> IsSuffix(Joined(fs.disk, keep), history))
      && (smooth ==> Bounded(fs.disk, fd, size, rotateAt, maxBytes, largest))
    }

    constructor (fs: FileSystem, maxBytes: int, keep: nat, luck: Luck)
      requires 1 <= keep && 1 <= maxBytes
      requires forall n :: n in fs.disk ==> !fs.disk[n].started
      modifies fs
      ensures Valid() && this.fs == fs && this.maxBytes == maxBytes && this.keep == keep
      ensures history == old(Joined(fs.disk, keep)) && safe && smooth && largest == 0
      ensures !fd ==> size == 0
    {
      this.fs, this.maxBytes, this.keep := fs, maxBytes, keep;
      fd, size, rotateAt := false, 0, maxBytes;
      history, largest, safe, smooth := Joined(fs.disk, keep), 0, true, true;
      new;
      Open(luck);
    }

    method Open(luck: Luck)
      requires 1 <= maxBytes && !fd
      modifies this`fd, this`size, this`rotateAt, fs
      ensures fs.disk == Opened(old(fs.disk), luck)
      ensures fd == (luck.mkdirOk && luck.openOk && luck.statOk) && (fd ==> 0 in fs.disk)
      ensures size == if fd then |fs.disk[0].bytes| else old(size)
      ensures rotateAt == if fd then maxBytes else old(rotateAt)
      ensures Joined(fs.disk, keep) == old(Joined(fs.disk, keep))
    {
      OpeningKeepsLog(fs.disk, keep, luck);
      var threw := fs.OpenAppend(luck);
      if !threw && luck.statOk {
        fd := true;
        size := |fs.disk[0].bytes|;
        rotateAt := maxBytes;
      } else {
        fd := false;
      }
    }

    method Rotate(luck: Luck)
      requires Valid()
      modifies this`fd, this`size, this`rotateAt, this`safe, this`smooth, fs
      ensures Valid()
      ensures fs.disk == Opened(Rotated(old(fs.disk), keep, luck), luck)
      ensures fd == (luck.mkdirOk && luck.openOk && luck.statOk)
      ensures fd ==> size == |fs.disk[0].bytes|
      ensures !fd ==> size == old(size)
      ensures RolledOver(old(fs.disk), fs.disk, keep, luck) && SameBeyond(old(fs.disk), fs.disk, keep)
      ensures safe == (old(safe) && Safe(luck, keep))
      ensures smooth == (old(smooth) && !LogStays(old(fs.disk), keep, luck))
      ensures smooth && fd ==> size == 0
      ensures rotateAt == if size >= maxBytes then size + maxBytes else if fd then maxBytes else old(rotateAt)
    {
      hide *;
      OpenUp();
      ghost var d, wasSafe := fs.disk, safe;
      RotationKeepsSuffix(d, keep, luck, history);
      RotationStaysBelow(d, keep, luck);
      RotationRollsOver(d, keep, luck);
      fd := false;
      Shuffle(luck);
      ghost var moved := smooth && 0 !in fs.disk;
      Reopen(luck);
      if moved { FreshFileBounded(d, keep, luck, fd, size, rotateAt, maxBytes, largest); }
      safe, smooth := wasSafe && Safe(luck, keep), moved;
      CloseUp();
    }

    /** The open after a rotation; a file that is still full is given room. */
    method Reopen(luck: Luck)
      requires 1 <= maxBytes && !fd
      modifies this`fd, this`size, this`rotateAt, fs
      ensures fs.disk == Opened(old(fs.disk), luck)
      ensures fd == (luck.mkdirOk && luck.openOk && luck.statOk) && (fd ==> 0 in fs.disk)
      ensures size == if fd then |fs.disk[0].bytes| else old(size)
      ensures rotateAt == if size >= maxBytes then size + maxBytes else if fd then maxBytes else old(rotateAt)
    {
      hide *;
      Open(luck);
      if size >= maxBytes { rotateAt := size + maxBytes; }
    }

    lemma OpenUp()
      requires Valid()
      ensures 1 <= keep && 1 <= maxBytes && 0 <= size && 0 <= largest && (fd ==> 0 in fs.disk)
      ensures safe ==> IsSuffix(Joined(fs.disk, keep), history)
      ensures smooth ==>
                Bounded(fs.disk, fd, size, rotateAt, maxBytes, largest)
                && StartedBounded(fs.disk, Max(maxBytes, largest))
    {
    }

    lemma CloseUp()
      requires 1 <= keep && 1 <= maxBytes && 0 <= size && 0 <= largest && (fd ==> 0 in fs.disk)
      requires safe ==> IsSuffix(Joined(fs.disk, keep), history)
      requires smooth ==> Bounded(fs.disk, fd, size, rotateAt, maxBytes, largest)
      ensures Valid()
    {
    }

    /** The removal and the renames of a rotation; the first failure ends them. */
    method Shuffle(luck: Luck)
      requires 1 <= keep
      modifies fs
      ensures fs.disk == Rotated(old(fs.disk), keep, luck)
    {
      var threw := fs.Remove(keep, luck.removeOk);
      if threw { return; }
      ghost var start := fs.disk;
      for i := keep downto 1
        invariant Shift(start, keep - 1, luck) == Shift(fs.disk, i - 1, luck)
      {
        var there := fs.Exists(i, luck.existsOk(i));
        if there {
          threw := fs.Rename(i, i + 1, luck.renameOk(i));
          if threw { return; }
        }
      }
      threw := fs.Rename(0, 1, luck.renameOk(0));
    }

    /** Appends to the log, rotating first when the text would take the file over its limit. */
    method Write(text: seq<Byte>, luck: Luck, writeOk: bool, count: nat) returns (ghost appended: nat)
      requires Valid() && count <= |text|
      modifies this`fd, this`size, this`rotateAt, this`safe, this`smooth, this`history, this`largest, fs
      ensures Valid()
      ensures appended == if fd && writeOk then count else 0
      ensures history == old(history) + text[..appended] && largest == Max(old(largest), |text|)
      ensures var rotates := old(size) > 0 && old(size) + |text| > old(rotateAt);
              var disk := if rotates then Opened(Rotated(old(fs.disk), keep, luck), luck) else old(fs.disk);
              fs.disk == if fd && writeOk && 0 in disk
                then disk[0 := File(disk[0].bytes + text[..count], disk[0].started)] else disk
      ensures !(old(size) > 0 && old(size) + |text| > old(rotateAt)) ==>
                fd == old(fd) && safe == old(safe) && smooth == old(smooth) && size == old(size) +
                  if fd && writeOk then |text| else 0
      ensures SameBeyond(old(fs.disk), fs.disk, keep)
      ensures old(size) > 0 && old(size) + |text| > old(rotateAt) ==>
                smooth == (old(smooth) && !LogStays(old(fs.disk), keep, luck))
      ensures old(size) > 0 && old(size) + |text| > old(rotateAt) ==> safe == (old(safe) && Safe(luck, keep))
      // A sink whose first open failed has size 0: it stays silent for good.
      ensures old(size) == 0 && !old(fd) ==> size == 0 && !fd && fs.disk == old(fs.disk)
    {
      hide *;
      OpenUp();
      LargerLimit(fs.disk, fd, size, rotateAt, maxBytes, largest, |text|);
      largest := Max(largest, |text|);
      CloseUp();
      SameAsItself(fs.disk, keep);
      if size > 0 && size + |text| > rotateAt { Rotate(luck); }
      appended := 0;
      if fd {
        ghost var before := fs.disk;
        appended := Append(text, writeOk, count);
        LogWriteStaysBelow(old(fs.disk), before, File(before[0].bytes + text[..count], before[0].started), keep);
      }
    }

    /** The write to the open file. */
    method Append(text: seq<Byte>, writeOk: bool, count: nat) returns (ghost appended: nat)
      requires Valid() && fd && count <= |text| <= largest
      requires smooth ==> size == 0 || size + |text| <= rotateAt
      modifies this`size, this`history, fs
      ensures Valid()
      ensures appended == if writeOk then count else 0
      ensures history == old(history) + text[..appended] && size == old(size) + if writeOk then |text| else 0
      ensures var disk := old(fs.disk);
              0 in disk && fs.disk ==
                if writeOk then disk[0 := File(disk[0].bytes + text[..count], disk[0].started)] else disk
    {
      hide *;
      appended := 0;
      OpenUp();
      AppendExtendsLog(fs.disk, keep, text[..count]);
      if safe { SuffixGrows(Joined(fs.disk, keep), history, text[..count]); }
      if smooth { AppendKeepsBound(fs.disk, size, rotateAt, maxBytes, largest, text, count); }
      var threw := fs.Append(text, writeOk, count);
      if !threw {
        size := size + |text|;
        history := history + text[..count];
        appended := count;
      }
      CloseUp();
    }

    method Close()
      requires Valid()
      modifies this`fd
      ensures Valid() && !fd
    {
      fd := false;
    }
  }
}
