/**
 * The names a download gets: the task id built from the VOD id and the
 * enqueue time, and the output path built from the download directory, the
 * streamer id, the VOD's creation date and a sanitised title.
 */
module Naming {

  /** The characters `[a-z0-9]` matches case-insensitively: ASCII letters and digits only. */
  predicate IsAsciiAlnum(c: char)
  {
    'a' <= c <= 'z' || 'A' <= c <= 'Z' || '0' <= c <= '9'
  }

  /** The characters a sanitised title is made of. */
  predicate IsSafeChar(c: char)
  {
    'a' <= c <= 'z' || '0' <= c <= '9' || c == '_'
  }

  function LowerAscii(c: char): char
  {
    if 'A' <= c <= 'Z' then (c as int + 32) as char else c
  }

  /**
   * How many UTF-16 code units a JavaScript string spends on `c`: two (a
   * surrogate pair) for a character outside the Basic Multilingual Plane,
   * one otherwise.
   */
  function CodeUnits(c: char): nat
  {
    if c as int >= 0x1_0000 then 2 else 1
  }

  /** `s.length` in JavaScript: the number of UTF-16 code units. */
  function Utf16Length(s: string): nat
  {
    if s == [] then 0 else CodeUnits(s[0]) + Utf16Length(s[1..])
  }

  /** A string's JavaScript length lies between its character count and twice that. */
  lemma {:induction false} Utf16LengthBounds(s: string)
    ensures |s| <= Utf16Length(s) <= 2 * |s|
    ensures (forall i :: 0 <= i < |s| ==> CodeUnits(s[i]) == 1) ==> Utf16Length(s) == |s|
  {
    if s != [] {
      Utf16LengthBounds(s[1..]);
      assert forall i :: 0 <= i < |s[1..]| ==> s[1..][i] == s[i + 1];
    }
  }

  function Underscores(n: nat): string
  {
    seq(n, _ => '_')
  }

  /**
   * `s.replace(/[^a-z0-9]/gi, '_')`. Without the `u` flag the pattern works on
   * code units, so each half of a surrogate pair is replaced on its own.
   */
  function ReplaceNonAlnum(s: string): string
  {
    if s == [] then []
    else (if IsAsciiAlnum(s[0]) then [s[0]] else Underscores(CodeUnits(s[0]))) + ReplaceNonAlnum(s[1..])
  }

  /** `s.toLowerCase()` on the ASCII letters it is applied to here. */
  function ToLowerAscii(s: string): string
  {
    if s == [] then [] else [LowerAscii(s[0])] + ToLowerAscii(s[1..])
  }

  /** The title as it appears in the file name. */
  function SafeTitle(title: string): string
  {
    ToLowerAscii(ReplaceNonAlnum(title))
  }

  lemma {:induction false} ToLowerAsciiPointwise(s: string)
    ensures |ToLowerAscii(s)| == |s|
    ensures forall i :: 0 <= i < |s| ==> ToLowerAscii(s)[i] == LowerAscii(s[i])
  {
    if s != [] {
      ToLowerAsciiPointwise(s[1..]);
    }
  }

  lemma {:induction false} ReplaceNonAlnumShape(s: string)
    ensures |ReplaceNonAlnum(s)| == Utf16Length(s)
    ensures forall i :: 0 <= i < |ReplaceNonAlnum(s)| ==> IsAsciiAlnum(ReplaceNonAlnum(s)[i]) || ReplaceNonAlnum(s)[i] == '_'
  {
    if s != [] {
      ReplaceNonAlnumShape(s[1..]);
    }
  }

  lemma {:induction false} ReplaceNonAlnumConcat(a: string, b: string)
    ensures ReplaceNonAlnum(a + b) == ReplaceNonAlnum(a) + ReplaceNonAlnum(b)
  {
    if a == [] {
      assert a + b == b;
    } else {
      assert (a + b)[0] == a[0] && (a + b)[1..] == a[1..] + b;
      ReplaceNonAlnumConcat(a[1..], b);
    }
  }

  lemma {:induction false} ReplaceNonAlnumBmp(s: string)
    requires forall i :: 0 <= i < |s| ==> CodeUnits(s[i]) == 1
    ensures |ReplaceNonAlnum(s)| == |s|
    ensures forall i :: 0 <= i < |s| ==> ReplaceNonAlnum(s)[i] == if IsAsciiAlnum(s[i]) then s[i] else '_'
  {
    if s != [] {
      assert forall i :: 0 <= i < |s[1..]| ==> s[1..][i] == s[i + 1];
      ReplaceNonAlnumBmp(s[1..]);
      var head := if IsAsciiAlnum(s[0]) then [s[0]] else Underscores(CodeUnits(s[0]));
      assert |head| == 1;
    }
  }

  /**
   * The sanitised title is as long as the title is in JavaScript (UTF-16 code
   * units) and is made of `[a-z0-9_]` only.
   */
  lemma SafeTitleShape(title: string)
    ensures |SafeTitle(title)| == Utf16Length(title)
    ensures forall i :: 0 <= i < |SafeTitle(title)| ==> IsSafeChar(SafeTitle(title)[i])
  {
    ReplaceNonAlnumShape(title);
    ToLowerAsciiPointwise(ReplaceNonAlnum(title));
  }

  /** Sanitising works character by character: a title's parts are sanitised independently. */
  lemma SafeTitleConcat(a: string, b: string)
    ensures SafeTitle(a + b) == SafeTitle(a) + SafeTitle(b)
  {
    ReplaceNonAlnumConcat(a, b);
    var ra, rb := ReplaceNonAlnum(a), ReplaceNonAlnum(b);
    ToLowerAsciiPointwise(ra);
    ToLowerAsciiPointwise(rb);
    ToLowerAsciiPointwise(ra + rb);
    assert forall i :: 0 <= i < |ra + rb| ==> ToLowerAscii(ra + rb)[i] == (ToLowerAscii(ra) + ToLowerAscii(rb))[i];
  }

  /**
   * A title inside the Basic Multilingual Plane keeps its length; each ASCII
   * letter or digit becomes its lower-case form and every other character `_`.
   */
  lemma SafeTitleBmp(title: string)
    requires forall i :: 0 <= i < |title| ==> CodeUnits(title[i]) == 1
    ensures |SafeTitle(title)| == |title|
    ensures forall i :: 0 <= i < |title| ==>
      SafeTitle(title)[i] == (if IsAsciiAlnum(title[i]) then LowerAscii(title[i]) else '_')
  {
    ReplaceNonAlnumBmp(title);
    ToLowerAsciiPointwise(ReplaceNonAlnum(title));
  }

  /** A character outside the Basic Multilingual Plane becomes two underscores. */
  lemma SafeTitleWideChar(c: char)
    requires c as int >= 0x1_0000
    ensures SafeTitle([c]) == "__"
  {
    assert [c][1..] == [];
    assert ReplaceNonAlnum([c]) == "__";
    ToLowerAsciiPointwise("__");
  }

  /** An emoji costs two underscores: "🎉 Win" is sanitised to `___win`. */
  lemma SafeTitleEmojiExample()
    ensures SafeTitle("\U{1F389} Win") == "___win"
  {
    SafeTitleConcat("\U{1F389}", " Win");
    SafeTitleWideChar('\U{1F389}');
    SafeTitleBmp(" Win");
    assert "\U{1F389}" + " Win" == "\U{1F389} Win";
  }

  /** Sanitising an already sanitised title changes nothing. */
  lemma SafeTitleIdempotent(title: string)
    ensures SafeTitle(SafeTitle(title)) == SafeTitle(title)
  {
    var s := SafeTitle(title);
    SafeTitleShape(title);
    assert forall i :: 0 <= i < |s| ==> CodeUnits(s[i]) == 1;
    SafeTitleBmp(s);
    assert forall i :: 0 <= i < |s| ==> SafeTitle(s)[i] == s[i];
  }

  /** `iso.split('T')[0]`: the text before the first `T`. */
  function DatePart(iso: string): (d: string)
    ensures |d| <= |iso| && d == iso[..|d|]
    ensures 'T' !in d
    ensures |d| == |iso| || iso[|d|] == 'T'
  {
    if iso == [] || iso[0] == 'T' then [] else [iso[0]] + DatePart(iso[1..])
  }

  /** `${date}_${safeTitle}_${vodId}.mp4` */
  function FileName(date: string, title: string, vodId: string): string
  {
    date + "_" + SafeTitle(title) + "_" + vodId + ".mp4"
  }

  /** Joining two path segments with the separator. */
  function JoinPath(dir: string, name: string): string
  {
    dir + "/" + name
  }

  /** Where a download is written: `<downloadPath>/<streamerId>/<date>_<safeTitle>_<vodId>.mp4`. */
  function OutputPath(downloadPath: string, streamerId: string, isoDate: string, title: string, vodId: string): string
  {
    JoinPath(JoinPath(downloadPath, streamerId), FileName(DatePart(isoDate), title, vodId))
  }

  /** The text after the last occurrence of `c` (all of `s` when `c` does not occur). */
  function AfterLast(s: string, c: char): string
  {
    if s == [] || s[|s| - 1] == c then [] else AfterLast(s[..|s| - 1], c) + [s[|s| - 1]]
  }

  lemma {:induction false} AfterLastSeparator(p: string, c: char, v: string)
    requires c !in v
    ensures AfterLast(p + [c] + v, c) == v
  {
    var s := p + [c] + v;
    if v != [] {
      var v' := v[..|v| - 1];
      assert s[..|s| - 1] == p + [c] + v';
      AfterLastSeparator(p, c, v');
      assert v == v' + [v[|v| - 1]];
    }
  }

  /**
   * The file name identifies the VOD: for VOD ids without `_` (the platform's ids
   * are digits), two equal file names carry the same VOD id, whatever the dates
   * and titles.
   */
  lemma FileNameDeterminesVod(d1: string, t1: string, v1: string, d2: string, t2: string, v2: string)
    requires '_' !in v1 && '_' !in v2
    requires FileName(d1, t1, v1) == FileName(d2, t2, v2)
    ensures v1 == v2
  {
    var p1 := d1 + "_" + SafeTitle(t1);
    var p2 := d2 + "_" + SafeTitle(t2);
    var s1 := p1 + "_" + v1;
    var s2 := p2 + "_" + v2;
    assert FileName(d1, t1, v1) == s1 + ".mp4";
    assert FileName(d2, t2, v2) == s2 + ".mp4";
    assert s1 == s2 by {
      assert s1 == (s1 + ".mp4")[..|s1|];
      assert s2 == (s2 + ".mp4")[..|s2|];
    }
    AfterLastSeparator(p1, '_', v1);
    AfterLastSeparator(p2, '_', v2);
  }

  // ---------------------------------------------------------------------------
  // Decimal rendering of integers, as template strings print them

  function DigitChar(d: nat): char
    requires d < 10
  {
    "0123456789"[d]
  }

  function NatToString(n: nat): string
  {
    if n < 10 then [DigitChar(n)] else NatToString(n / 10) + [DigitChar(n % 10)]
  }

  function IntToString(i: int): string
  {
    if i < 0 then "-" + NatToString(-i) else NatToString(i)
  }

  /** A rendered natural number is a non-empty run of decimal digits. */
  lemma {:induction false} NatToStringDigits(n: nat)
    ensures |NatToString(n)| >= 1
    ensures forall i :: 0 <= i < |NatToString(n)| ==> '0' <= NatToString(n)[i] <= '9'
  {
    if n >= 10 {
      NatToStringDigits(n / 10);
    }
  }

  /** Distinct digits render as distinct characters. */
  lemma DigitCharInjective(a: nat, b: nat)
    requires a < 10 && b < 10 && DigitChar(a) == DigitChar(b)
    ensures a == b
  {
  }

  /** Decimal rendering loses nothing: distinct numbers have distinct texts. */
  lemma {:induction false} NatToStringInjective(a: nat, b: nat)
    requires NatToString(a) == NatToString(b)
    ensures a == b
  {
    if a >= 10 {
      NatToStringDigits(a / 10);
    }
    if b >= 10 {
      NatToStringDigits(b / 10);
    }
    if a < 10 && b < 10 {
      DigitCharInjective(a, b);
    } else if a >= 10 && b >= 10 {
      var sa, sb := NatToString(a), NatToString(b);
      assert sa[..|sa| - 1] == NatToString(a / 10);
      assert sb[..|sb| - 1] == NatToString(b / 10);
      NatToStringInjective(a / 10, b / 10);
      assert sa[|sa| - 1] == DigitChar(a % 10);
      assert sb[|sb| - 1] == DigitChar(b % 10);
      DigitCharInjective(a % 10, b % 10);
    }
  }

  /** `${vodId}-${Date.now()}` */
  function TaskId(vodId: string, now: int): string
  {
    vodId + "-" + IntToString(now)
  }

  /**
   * A task id starts with the VOD id and a dash and, for a clock reading at or
   * after the epoch, ends with that reading's digits.
   */
  lemma TaskIdShape(vodId: string, now: int)
    requires now >= 0
    ensures var id := TaskId(vodId, now);
      && id[..|vodId| + 1] == vodId + "-"
      && |id| > |vodId| + 1
      && forall i :: |vodId| + 1 <= i < |id| ==> '0' <= id[i] <= '9'
  {
    NatToStringDigits(now);
    var id := TaskId(vodId, now);
    assert forall i :: |vodId| + 1 <= i < |id| ==> id[i] == NatToString(now)[i - |vodId| - 1];
  }

  /**
   * The digits of a task id are the clock reading itself: two readings give
   * two different ids for the same VOD, so `activeDownloads` entries of two
   * downloads of one VOD never collide.
   */
  lemma TaskIdInjective(vodId: string, n1: int, n2: int)
    requires n1 >= 0 && n2 >= 0
    requires TaskId(vodId, n1) == TaskId(vodId, n2)
    ensures n1 == n2
  {
    var k := |vodId| + 1;
    assert TaskId(vodId, n1)[k..] == NatToString(n1);
    assert TaskId(vodId, n2)[k..] == NatToString(n2);
    NatToStringInjective(n1, n2);
  }
}
