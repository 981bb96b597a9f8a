/**
 * Object names inside a block and the rule that decides which destination
 * paths a block-file upload may write to.
 */
module FilePaths {

  /** path.Join(dir, name) for a block directory without '/' and a clean relative name. */
  function Join(dir: string, name: string): string
  {
    dir + "/" + name
  }

  /** The name of the published descriptor inside a block directory. */
  const META_FILENAME := "meta.json"

  /** The name of the staged descriptor inside a block directory. */
  const TEMP_META_FILENAME := "meta.json.temp"

  const INDEX_FILENAME := "index"
  const CHUNKS_PREFIX := "chunks/"

  /** The regular-expression class \d of RE2: an ASCII decimal digit. */
  predicate IsDigit(c: char)
  {
    '0' <= c <= '9'
  }

  predicate AllDigits(s: string)
  {
    forall i :: 0 <= i < |s| ==> IsDigit(s[i])
  }

  /** The regular expression ^(index|chunks/\d{6})$, character by character. */
  predicate MatchesFilePattern(p: string)
  {
    p == INDEX_FILENAME || (|p| == 13 && p[..7] == CHUNKS_PREFIX && AllDigits(p[7..]))
  }

  /** `p` with every trailing '/' removed. */
  function TrimTrailingSlashes(p: string): (q: string)
    ensures |q| <= |p| && q == p[..|q|]
    ensures q == "" || q[|q| - 1] != '/'
    ensures forall i :: |q| <= i < |p| ==> p[i] == '/'
  {
    if p != "" && p[|p| - 1] == '/' then TrimTrailingSlashes(p[..|p| - 1]) else p
  }

  /** The part of `p` after its last '/', or all of `p` when it has none. */
  function LastElement(p: string): (e: string)
    ensures '/' !in e
    ensures |e| <= |p| && e == p[|p| - |e|..]
    ensures |e| < |p| ==> p[|p| - |e| - 1] == '/'
  {
    if p == "" || p[|p| - 1] == '/' then "" else LastElement(p[..|p| - 1]) + [p[|p| - 1]]
  }

  /** path.Base: the last element of a slash-separated path. */
  function Base(p: string): (b: string)
    ensures b != ""
    ensures p != "" && b != "/" ==> '/' !in b
  {
    if p == "" then "."
    else
      var trimmed := TrimTrailingSlashes(p);
      if trimmed == "" then "/" else LastElement(trimmed)
  }

  /** The ASCII digit for `d`. */
  function DigitChar(d: nat): (c: char)
    requires d < 10
    ensures IsDigit(c)
  {
    ('0' as int + d) as char
  }

  /** The value of an ASCII digit. */
  function DigitValue(c: char): (d: nat)
    requires IsDigit(c)
    ensures d < 10 && DigitChar(d) == c
  {
    c as int - '0' as int
  }

  function Pow10(k: nat): (p: nat)
    ensures p >= 1
  {
    if k == 0 then 1 else 10 * Pow10(k - 1)
  }

  /** `n` written with exactly `width` decimal digits, zero-padded on the left. */
  function PadDigits(n: nat, width: nat): (s: string)
    ensures |s| == width && AllDigits(s)
  {
    if width == 0 then "" else PadDigits(n / 10, width - 1) + [DigitChar(n % 10)]
  }

  /** The number a string of decimal digits denotes. */
  function DigitsValue(s: string): nat
    requires AllDigits(s)
  {
    if s == "" then 0 else 10 * DigitsValue(s[..|s| - 1]) + DigitValue(s[|s| - 1])
  }

  /** The destination path of chunk segment `n`. */
  function ChunkPath(n: nat): string
    requires n < 1000000
  {
    CHUNKS_PREFIX + PadDigits(n, 6)
  }

  /** A digit string denotes a number below 10^|s|. */
  lemma {:induction false} DigitsValueBound(s: string)
    requires AllDigits(s)
    ensures DigitsValue(s) < Pow10(|s|)
  {
    if s != "" {
      DigitsValueBound(s[..|s| - 1]);
    }
  }

  /** Writing the value of a digit string back with its own width gives the string again. */
  lemma {:induction false} PadDigitsValue(s: string)
    requires AllDigits(s)
    ensures PadDigits(DigitsValue(s), |s|) == s
  {
    if s != "" {
      var init, d := s[..|s| - 1], DigitValue(s[|s| - 1]);
      var n := 10 * DigitsValue(init) + d;
      assert n / 10 == DigitsValue(init) && n % 10 == d;
      PadDigitsValue(init);
      assert s == init + [s[|s| - 1]];
    }
  }

  /** Reading back a zero-padded number gives the number, when it fits the width. */
  lemma {:induction false} DigitsValuePad(n: nat, width: nat)
    requires n < Pow10(width)
    ensures DigitsValue(PadDigits(n, width)) == n
  {
    if width > 0 {
      var q, d := n / 10, n % 10;
      assert n == 10 * q + d && d < 10;
      assert q < Pow10(width - 1);
      DigitsValuePad(q, width - 1);
      var s := PadDigits(n, width);
      assert s == PadDigits(q, width - 1) + [DigitChar(d)];
      assert s[..|s| - 1] == PadDigits(q, width - 1);
      assert DigitValue(s[|s| - 1]) == d;
    }
  }

  /**
   * The accepted destination paths are exactly `index` and `chunks/000000`
   * to `chunks/999999`: one path per chunk number.
   */
  lemma FilePatternIsIndexOrChunk(p: string)
    ensures MatchesFilePattern(p) <==> p == INDEX_FILENAME || exists n: nat :: n < 1000000 && p == ChunkPath(n)
  {
    if p != INDEX_FILENAME && MatchesFilePattern(p) {
      var digits := p[7..];
      DigitsValueBound(digits);
      PadDigitsValue(digits);
      assert p == CHUNKS_PREFIX + digits;
      assert p == ChunkPath(DigitsValue(digits));
    }
    if exists n: nat :: n < 1000000 && p == ChunkPath(n) {
      var n: nat :| n < 1000000 && p == ChunkPath(n);
      assert p[..7] == CHUNKS_PREFIX && p[7..] == PadDigits(n, 6);
    }
  }

  /** Chunk numbers and chunk paths are in one-to-one correspondence. */
  lemma ChunkPathInjective(m: nat, n: nat)
    requires m < 1000000 && n < 1000000
    ensures ChunkPath(m) == ChunkPath(n) <==> m == n
  {
    if ChunkPath(m) == ChunkPath(n) {
      assert PadDigits(m, 6) == ChunkPath(m)[7..];
      DigitsValuePad(m, 6);
      DigitsValuePad(n, 6);
    }
  }

  /** The last element of `dir/name` is `name` when `name` has no '/'. */
  lemma {:induction false} LastElementOfJoin(dir: string, name: string)
    requires '/' !in name
    ensures LastElement(dir + "/" + name) == name
  {
    if name != "" {
      var init := name[..|name| - 1];
      assert (dir + "/" + name)[..|dir + "/" + name| - 1] == dir + "/" + init;
      LastElementOfJoin(dir, init);
      assert name == init + [name[|name| - 1]];
    }
  }

  /** The basename of a path that does not end in '/' is its last element. */
  lemma BaseWithoutTrailingSlash(p: string)
    requires p != "" && p[|p| - 1] != '/'
    ensures Base(p) == LastElement(p)
  {
    assert TrimTrailingSlashes(p) == p;
  }

  /**
   * Every accepted path has a basename other than `meta.json`: the
   * basename test only gives the descriptor names their own error message.
   */
  lemma BaseOfAcceptedPath(p: string)
    requires MatchesFilePattern(p)
    ensures Base(p) == if p == INDEX_FILENAME then INDEX_FILENAME else p[7..]
    ensures Base(p) != META_FILENAME
  {
    AcceptedPathIsNotDescriptor(p);
    BaseWithoutTrailingSlash(p);
    if p == INDEX_FILENAME {
      LastElementNoSlash(INDEX_FILENAME);
    } else {
      BaseOfChunkPath(p);
    }
  }

  lemma BaseOfChunkPath(p: string)
    requires |p| == 13 && p[..7] == CHUNKS_PREFIX && AllDigits(p[7..])
    ensures LastElement(p) == p[7..]
  {
    var digits := p[7..];
    assert p == "chunks" + "/" + digits;
    assert '/' !in digits by {
      forall i | 0 <= i < |digits| ensures digits[i] != '/' { assert IsDigit(digits[i]); }
    }
    LastElementOfJoin("chunks", digits);
  }

  /** The `meta.json` basename test never turns away a path the pattern accepts. */
  lemma MetaBasenameNeverMatches(p: string)
    ensures Base(p) == META_FILENAME ==> !MatchesFilePattern(p)
  {
    if MatchesFilePattern(p) {
      BaseOfAcceptedPath(p);
    }
  }

  /**
   * An accepted path ends in a letter `x` or a digit, never in the last
   * character of `meta.json` or `meta.json.temp`: no accepted file path
   * names a descriptor.
   */
  lemma AcceptedPathIsNotDescriptor(p: string)
    requires MatchesFilePattern(p)
    ensures p != "" && p[|p| - 1] != '/' && p[|p| - 1] != 'n' && p[|p| - 1] != 'p'
    ensures p != META_FILENAME && p != TEMP_META_FILENAME
  {
    if p != INDEX_FILENAME {
      assert IsDigit(p[7..][5]);
    }
  }

  /** The examples the upload protocol documents for its path rule. */
  lemma PathRuleExamples()
    ensures MatchesFilePattern("index")
    ensures MatchesFilePattern("chunks/000001") && MatchesFilePattern("chunks/999999")
    ensures !MatchesFilePattern("chunks/1") && !MatchesFilePattern("chunks/0000001")
    ensures !MatchesFilePattern("meta.json") && !MatchesFilePattern("../index")
    ensures !MatchesFilePattern("") && !MatchesFilePattern("chunks/00000a")
  {
    assert "chunks/000001"[..7] == CHUNKS_PREFIX;
    assert "chunks/999999"[..7] == CHUNKS_PREFIX;
    assert "chunks/00000a"[7..][5] == 'a';
  }

  /**
   * Descriptor names are recognised by basename, at any depth: a plain
   * name is its own basename, and so is the name below any directory.
   */
  lemma BaseOfName(dir: string, name: string)
    requires name != "" && '/' !in name
    ensures Base(name) == name
    ensures Base(dir + "/" + name) == name
  {
    assert name[|name| - 1] in name;
    BaseWithoutTrailingSlash(name);
    LastElementNoSlash(name);
    var p := dir + "/" + name;
    assert p[|p| - 1] == name[|name| - 1];
    BaseWithoutTrailingSlash(p);
    LastElementOfJoin(dir, name);
  }

  /** A string without '/' is its own last element. */
  lemma {:induction false} LastElementNoSlash(p: string)
    requires '/' !in p
    ensures LastElement(p) == p
  {
    if p != "" {
      var init, last := p[..|p| - 1], p[|p| - 1];
      assert last in p;
      assert '/' !in init by {
        forall i | 0 <= i < |init| ensures init[i] != '/' { assert init[i] == p[i]; }
      }
      LastElementNoSlash(init);
    }
  }
}
