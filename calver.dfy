/** The build's calendar version: the branch name (off the main branch)
    and the UTC time of the HEAD commit as yyyyMMdd.HHmmss, joined with
    '-', with every '/' made into '-'. */
module CalVer {
  import opened Wrappers
  import opened Strings

  /** A UTC date and time as the commit time converts to. */
  datatype DateTime = DateTime(year: int, month: int, day: int, hour: int, minute: int, second: int)

  predicate ValidDateTime(t: DateTime) {
    && 0 <= t.year
    && 1 <= t.month <= 12 && 1 <= t.day <= 31
    && 0 <= t.hour < 24 && 0 <= t.minute < 60 && 0 <= t.second < 60
  }

  /** `padZerros()`: the decimal digits, left-padded with '0' to two
      characters; a longer string is kept whole. */
  function PadZeros(n: int): (r: string)
    ensures |r| == if |IntToString(n)| >= 2 then |IntToString(n)| else 2
    ensures EndsWith(r, IntToString(n))
    ensures forall i :: 0 <= i < |r| - |IntToString(n)| ==> r[i] == '0'
  {
    PadStart(IntToString(n), 2, '0')
  }

  /** A number below 100 pads to exactly two digits that read back as it. */
  lemma PadZerosTwoDigits(n: int)
    requires 0 <= n < 100
    ensures |PadZeros(n)| == 2 && AllDigits(PadZeros(n)) && DecimalValue(PadZeros(n)) == n
  {
    var hi, lo := n / 10, n % 10;
    var r := PadZeros(n);
    if n < 10 {
      assert NatToString(n) == [DigitChar(n)];
      assert r == [DigitChar(0), DigitChar(n)];
      DecimalValueOfPair(0, n);
    } else {
      assert NatToString(hi) == [DigitChar(hi)];
      assert r == [DigitChar(hi), DigitChar(lo)];
      DecimalValueOfPair(hi, lo);
    }
  }

  lemma DecimalValueOfPair(hi: nat, lo: nat)
    requires hi < 10 && lo < 10
    ensures DecimalValue([DigitChar(hi), DigitChar(lo)]) == hi * 10 + lo
  {
    var a := [DigitChar(hi)];
    var s := a + [DigitChar(lo)];
    assert a[..|a| - 1] == [];
    assert DigitValue(DigitChar(hi)) == hi;
    assert DecimalValue(a) == hi;
    assert s[..|s| - 1] == a;
    assert DigitValue(DigitChar(lo)) == lo;
    assert s == [DigitChar(hi), DigitChar(lo)];
  }

  /** A non-negative number pads to digits only. */
  lemma PadZerosAllDigits(n: int)
    requires n >= 0
    ensures AllDigits(PadZeros(n))
  {
    var s := IntToString(n);
    var r := PadZeros(n);
    forall i | 0 <= i < |r| ensures IsDigit(r[i]) {
      if i >= |r| - |s| {
        assert r[i] == s[i - (|r| - |s|)];
      }
    }
  }

  lemma AllDigitsConcat(a: string, b: string)
    requires AllDigits(a) && AllDigits(b)
    ensures AllDigits(a + b)
  {
    forall i | 0 <= i < |a + b| ensures IsDigit((a + b)[i]) {
      if i >= |a| {
        assert (a + b)[i] == b[i - |a|];
      }
    }
  }

  function FullPaddedDate(t: DateTime): string {
    IntToString(t.year) + PadZeros(t.month) + PadZeros(t.day)
  }

  function FullPaddedTime(t: DateTime): string {
    PadZeros(t.hour) + PadZeros(t.minute) + PadZeros(t.second)
  }

  /** `fullPaddedDateTime()`: date, '.', time. */
  function FullPaddedDateTime(t: DateTime): (r: string)
    ensures r == FullPaddedDate(t) + "." + FullPaddedTime(t)
  {
    FullPaddedDate(t) + "." + FullPaddedTime(t)
  }

  lemma YearHasFourDigits(year: int)
    requires 1000 <= year <= 9999
    ensures |IntToString(year)| == 4
  {
    assert |NatToString(year / 1000)| == 1;
    assert year / 100 / 10 == year / 1000;
    assert |NatToString(year / 100)| == 2;
    assert year / 10 / 10 == year / 100;
    assert |NatToString(year / 10)| == 3;
  }

  /** The slices of a stamp put together from fields of known widths. */
  lemma StampSlices(y: string, mo: string, d: string, h: string, mi: string, se: string)
    requires |y| == 4 && |mo| == 2 && |d| == 2 && |h| == 2 && |mi| == 2 && |se| == 2
    ensures var r := (y + mo + d) + "." + (h + mi + se);
      && |r| == 15 && r[8] == '.'
      && r[..4] == y && r[4..6] == mo && r[6..8] == d
      && r[9..11] == h && r[11..13] == mi && r[13..15] == se
  {
    var r := (y + mo + d) + "." + (h + mi + se);
    assert r[..4] == y;
    assert r[4..6] == mo;
    assert r[6..8] == d;
    assert r[9..11] == h;
    assert r[11..13] == mi;
    assert r[13..15] == se;
  }

  /** Where each field sits in a stamp with a four-digit year. */
  lemma FullPaddedDateTimeLayout(t: DateTime)
    requires ValidDateTime(t) && 1000 <= t.year <= 9999
    ensures var r := FullPaddedDateTime(t);
      && |r| == 15 && r[8] == '.'
      && r[..4] == IntToString(t.year)
      && r[4..6] == PadZeros(t.month) && r[6..8] == PadZeros(t.day)
      && r[9..11] == PadZeros(t.hour) && r[11..13] == PadZeros(t.minute)
      && r[13..15] == PadZeros(t.second)
  {
    YearHasFourDigits(t.year);
    PadZerosTwoDigits(t.month);
    PadZerosTwoDigits(t.day);
    PadZerosTwoDigits(t.hour);
    PadZerosTwoDigits(t.minute);
    PadZerosTwoDigits(t.second);
    StampSlices(IntToString(t.year), PadZeros(t.month), PadZeros(t.day),
      PadZeros(t.hour), PadZeros(t.minute), PadZeros(t.second));
  }

  /** A four-digit year gives a 15-character stamp whose fields read back
      as the date and time. */
  lemma FullPaddedDateTimeFields(t: DateTime)
    requires ValidDateTime(t) && 1000 <= t.year <= 9999
    ensures var r := FullPaddedDateTime(t);
      && |r| == 15 && r[8] == '.'
      && AllDigits(r[..4]) && DecimalValue(r[..4]) == t.year
      && AllDigits(r[4..6]) && DecimalValue(r[4..6]) == t.month
      && AllDigits(r[6..8]) && DecimalValue(r[6..8]) == t.day
      && AllDigits(r[9..11]) && DecimalValue(r[9..11]) == t.hour
      && AllDigits(r[11..13]) && DecimalValue(r[11..13]) == t.minute
      && AllDigits(r[13..15]) && DecimalValue(r[13..15]) == t.second
  {
    FullPaddedDateTimeLayout(t);
    DecimalValueOfNatToString(t.year);
    PadZerosTwoDigits(t.month);
    PadZerosTwoDigits(t.day);
    PadZerosTwoDigits(t.hour);
    PadZerosTwoDigits(t.minute);
    PadZerosTwoDigits(t.second);
  }

  /** A stamp of non-negative fields is digits and one '.', so it has no
      '/' and no '-'. */
  lemma FullPaddedDateTimeHasNoSeparators(t: DateTime)
    requires ValidDateTime(t)
    ensures '/' !in FullPaddedDateTime(t) && '-' !in FullPaddedDateTime(t)
  {
    FullPaddedDateAllDigits(t);
    FullPaddedTimeAllDigits(t);
    DigitsDotDigits(FullPaddedDate(t), FullPaddedTime(t));
  }

  lemma FullPaddedDateAllDigits(t: DateTime)
    requires ValidDateTime(t)
    ensures AllDigits(FullPaddedDate(t))
  {
    PadZerosAllDigits(t.month);
    PadZerosAllDigits(t.day);
    AllDigitsConcat(IntToString(t.year), PadZeros(t.month));
    AllDigitsConcat(IntToString(t.year) + PadZeros(t.month), PadZeros(t.day));
  }

  lemma FullPaddedTimeAllDigits(t: DateTime)
    requires ValidDateTime(t)
    ensures AllDigits(FullPaddedTime(t))
  {
    PadZerosAllDigits(t.hour);
    PadZerosAllDigits(t.minute);
    PadZerosAllDigits(t.second);
    AllDigitsConcat(PadZeros(t.hour), PadZeros(t.minute));
    AllDigitsConcat(PadZeros(t.hour) + PadZeros(t.minute), PadZeros(t.second));
  }

  /** Digits, '.', digits: neither '/' nor '-'. */
  lemma DigitsDotDigits(a: string, b: string)
    requires AllDigits(a) && AllDigits(b)
    ensures '/' !in a + "." + b && '-' !in a + "." + b
  {
    var r := a + "." + b;
    forall i | 0 <= i < |r| ensures r[i] != '/' && r[i] != '-' {
      if i < |a| {
        assert r[i] == a[i] && IsDigit(a[i]);
      } else if i > |a| {
        assert r[i] == b[i - |a| - 1] && IsDigit(b[i - |a| - 1]);
      }
    }
  }

  /** What the repository reports: the current branch (absent when there
      is none) and the UTC time of the HEAD commit (absent without one). */
  datatype Repository = Repository(branch: Option<string>, headCommitTime: Option<DateTime>)

  /** `generateCalVer()`: the branch when it is not the main branch, then
      the stamp of the HEAD commit, each only when present. */
  function GenerateCalVer(repo: Repository, masterBranchName: string): (r: string)
    ensures '/' !in r
  {
    var parts :=
      (if repo.branch.Some? && repo.branch.value != masterBranchName then [repo.branch.value] else [])
      + (if repo.headCommitTime.Some? then [FullPaddedDateTime(repo.headCommitTime.value)] else []);
    ReplaceCharRemoves(Join(parts, "-"), '/', '-');
    ReplaceChar(Join(parts, "-"), '/', '-')
  }

  lemma {:induction false} ReplaceCharConcat(a: string, b: string, x: char, y: char)
    ensures ReplaceChar(a + b, x, y) == ReplaceChar(a, x, y) + ReplaceChar(b, x, y)
  {
    var l := ReplaceChar(a + b, x, y);
    var rr := ReplaceChar(a, x, y) + ReplaceChar(b, x, y);
    assert |l| == |rr|;
    forall i | 0 <= i < |l| ensures l[i] == rr[i] {
      if i < |a| {
        assert (a + b)[i] == a[i];
      } else {
        assert (a + b)[i] == b[i - |a|];
      }
    }
  }

  lemma {:induction false} ReplaceAbsentCharIsIdentity(s: string, x: char, y: char)
    requires x !in s
    ensures ReplaceChar(s, x, y) == s
  {
    var r := ReplaceChar(s, x, y);
    forall i | 0 <= i < |s| ensures r[i] == s[i] {
      assert s[i] in s;
    }
  }

  /** On the main branch the version is the commit stamp alone. */
  lemma CalVerOnMaster(repo: Repository, masterBranchName: string)
    requires repo.branch == Some(masterBranchName)
    requires repo.headCommitTime.Some? && ValidDateTime(repo.headCommitTime.value)
    ensures GenerateCalVer(repo, masterBranchName) == FullPaddedDateTime(repo.headCommitTime.value)
  {
    FullPaddedDateTimeHasNoSeparators(repo.headCommitTime.value);
    ReplaceAbsentCharIsIdentity(FullPaddedDateTime(repo.headCommitTime.value), '/', '-');
  }

  /** Off the main branch the branch comes first, with its '/' made into
      '-', then '-' and the stamp. */
  lemma CalVerOffMaster(repo: Repository, masterBranchName: string)
    requires repo.branch.Some? && repo.branch.value != masterBranchName
    requires repo.headCommitTime.Some? && ValidDateTime(repo.headCommitTime.value)
    ensures GenerateCalVer(repo, masterBranchName) ==
      ReplaceChar(repo.branch.value, '/', '-') + "-" + FullPaddedDateTime(repo.headCommitTime.value)
  {
    var b := repo.branch.value;
    var stamp := FullPaddedDateTime(repo.headCommitTime.value);
    assert Join([b, stamp], "-") == b + "-" + stamp;
    FullPaddedDateTimeHasNoSeparators(repo.headCommitTime.value);
    ReplaceCharConcat(b + "-", stamp, '/', '-');
    ReplaceCharConcat(b, "-", '/', '-');
    ReplaceAbsentCharIsIdentity(stamp, '/', '-');
    assert ReplaceChar("-", '/', '-') == "-";
  }

  /** Without a HEAD commit only the branch part is left (and nothing at all
      on the main branch). */
  lemma CalVerWithoutCommit(repo: Repository, masterBranchName: string)
    requires repo.headCommitTime.None?
    ensures GenerateCalVer(repo, masterBranchName) ==
      if repo.branch.Some? && repo.branch.value != masterBranchName
      then ReplaceChar(repo.branch.value, '/', '-') else ""
  {
  }
}
