/** The names of chunk files. */
module Paths {

  function Digit(d: nat): (c: char)
    requires d < 10
  {
    ['0', '1', '2', '3', '4', '5', '6', '7', '8', '9'][d]
  }

  /** std::to_string of a number that is not negative. */
  function Digits(n: nat): (text: string) {
    if n < 10 then [Digit(n)] else Digits(n / 10) + [Digit(n % 10)]
  }

  /** std::to_string. */
  function Decimal(n: int): (text: string) {
    if n < 0 then "-" + Digits(-n) else Digits(n)
  }

  /** The directory of one version of a video. */
  function VideoDir(root: string, id: string, version: int): (path: string) {
    root + "/" + id + "/" + Decimal(version)
  }

  function Filename(root: string, id: string, version: int, sequence: int): (path: string) {
    VideoDir(root, id, version) + "/chunk" + Decimal(sequence)
  }

  // ----- numbers -----

  lemma {:induction false} DigitsAreDigits(n: nat)
    ensures Digits(n) != [] && forall i | 0 <= i < |Digits(n)| :: '0' <= Digits(n)[i] <= '9'
  {
    if n >= 10 { DigitsAreDigits(n / 10); }
  }

  lemma LastDigit(n: nat)
    ensures Digits(n) != [] && Digits(n)[|Digits(n)| - 1] == Digit(n % 10)
    ensures Digits(n)[..|Digits(n)| - 1] == if n < 10 then [] else Digits(n / 10)
  {
  }

  lemma {:induction false} DigitsInjective(a: nat, b: nat)
    requires Digits(a) == Digits(b)
    ensures a == b
    decreases a
  {
    LastDigit(a);
    LastDigit(b);
    if a >= 10 && b >= 10 {
      DigitsInjective(a / 10, b / 10);
    } else if a >= 10 {
      DigitsAreDigits(a / 10);
    } else if b >= 10 {
      DigitsAreDigits(b / 10);
    }
  }

  lemma MinusIsNegative(n: int)
    ensures Decimal(n) != [] && (Decimal(n)[0] == '-' <==> n < 0)
  {
    DigitsAreDigits(if n < 0 then -n else n);
  }

  lemma DropHead(h: string, x: string, y: string)
    requires h + x == h + y
    ensures x == y
  {
    assert x == (h + x)[|h|..] && y == (h + y)[|h|..];
  }

  lemma DecimalInjective(a: int, b: int)
    requires Decimal(a) == Decimal(b)
    ensures a == b
  {
    hide Digits;
    MinusIsNegative(a);
    MinusIsNegative(b);
    if a < 0 {
      DropHead("-", Digits(-a), Digits(-b));
      DigitsInjective(-a, -b);
    } else {
      DigitsInjective(a, b);
    }
  }

  // ----- components -----

  /** A component of a path: a text without a slash. */
  predicate Plain(s: string) { '/' !in s }

  lemma DecimalPlain(n: int)
    ensures Plain(Decimal(n)) && Plain("chunk" + Decimal(n))
  {
    DigitsAreDigits(if n < 0 then -n else n);
  }

  lemma SlashInside(x: string, d: string, y: string, e: string)
    requires y != [] && y[|y| - 1] == '/' && x + d == y + e && |x| < |y|
    ensures !Plain(d)
  {
    assert d[|y| - 1 - |x|] == (x + d)[|y| - 1] == (y + e)[|y| - 1] == '/';
  }

  lemma SameSplit(x: string, d: string, y: string, e: string)
    requires x + d == y + e && |x| == |y|
    ensures x == y && d == e
  {
    assert x == (x + d)[..|x|] && y == (y + e)[..|y|];
    assert d == (x + d)[|x|..] && e == (y + e)[|y|..];
  }

  /** The last component of a path is found again. */
  lemma LastComponent(x: string, d: string, y: string, e: string)
    requires x != [] && y != [] && x[|x| - 1] == y[|y| - 1] == '/' && Plain(d) && Plain(e)
    requires x + d == y + e
    ensures x == y && d == e
  {
    if |x| < |y| {
      SlashInside(x, d, y, e);
    } else if |y| < |x| {
      SlashInside(y, e, x, d);
    } else {
      SameSplit(x, d, y, e);
    }
  }

  lemma DropTail(x: string, y: string, t: string)
    requires x + t == y + t
    ensures x == y
  {
    assert |x| == |x + t| - |t| == |y + t| - |t| == |y|;
    SameSplit(x, t, y, t);
  }

  lemma DirInjective(root: string, id: string, version: int, id': string, version': int)
    requires VideoDir(root, id, version) == VideoDir(root, id', version')
    ensures id == id' && version == version'
  {
    DecimalPlain(version);
    DecimalPlain(version');
    LastComponent(root + "/" + id + "/", Decimal(version), root + "/" + id' + "/", Decimal(version'));
    DropTail(root + "/" + id, root + "/" + id', "/");
    DropHead(root + "/", id, id');
    DecimalInjective(version, version');
  }

  lemma ChunkComponent(dir: string, number: string)
    ensures dir + "/chunk" + number == dir + "/" + ("chunk" + number)
  {
    assert "/chunk" == "/" + "chunk";
    assert dir + "/chunk" + number == dir + ("/chunk" + number);
  }

  lemma ChunkNameInjective(dir: string, m: int, dir': string, n: int)
    requires dir + "/chunk" + Decimal(m) == dir' + "/chunk" + Decimal(n)
    ensures dir == dir' && m == n
  {
    DecimalPlain(m);
    DecimalPlain(n);
    ChunkComponent(dir, Decimal(m));
    ChunkComponent(dir', Decimal(n));
    LastComponent(dir + "/", "chunk" + Decimal(m), dir' + "/", "chunk" + Decimal(n));
    DropTail(dir, dir', "/");
    DropHead("chunk", Decimal(m), Decimal(n));
    DecimalInjective(m, n);
  }

  /** Different chunks of a replica live in different files, whatever the video ids contain. */
  lemma FilenameInjective(root: string, id: string, version: int, sequence: int, id': string, version': int,
                          sequence': int)
    requires Filename(root, id, version, sequence) == Filename(root, id', version', sequence')
    ensures id == id' && version == version' && sequence == sequence'
  {
    ChunkNameInjective(VideoDir(root, id, version), sequence, VideoDir(root, id', version'), sequence');
    DirInjective(root, id, version, id', version');
  }
}
