/** Where an uploaded document is stored: the kind's folder, the upload time
    in milliseconds written in decimal, a dot, and the extension of the
    original file name. */
module Paths {
  import opened Records

  predicate IsDigit(c: char) {
    '0' <= c <= '9'
  }

  function DigitChar(d: nat): (c: char)
    requires d < 10
    ensures IsDigit(c)
  {
    ('0' as int + d) as char
  }

  /** A non-negative integer written in decimal, as a template string
      renders `Date.now()`: no sign, no leading zeros. */
  function Decimal(n: nat): (s: string)
    ensures |s| >= 1
    ensures forall i :: 0 <= i < |s| ==> IsDigit(s[i])
    ensures n >= 10 ==> s[0] != '0'
  {
    if n < 10 then [DigitChar(n)] else Decimal(n / 10) + [DigitChar(n % 10)]
  }

  /** The value a string of decimal digits denotes. */
  function DecimalValue(s: string): nat
    requires forall i :: 0 <= i < |s| ==> IsDigit(s[i])
  {
    if s == [] then 0
    else
      var last := s[|s| - 1];
      assert IsDigit(last);
      DecimalValue(s[..|s| - 1]) * 10 + (last as int - '0' as int)
  }

  /** Reading back the rendered timestamp gives the timestamp. */
  lemma {:induction false} DecimalRoundTrip(n: nat)
    ensures DecimalValue(Decimal(n)) == n
  {
    var s := Decimal(n);
    if n >= 10 {
      assert s[..|s| - 1] == Decimal(n / 10);
      DecimalRoundTrip(n / 10);
    }
  }

  /** Distinct timestamps render differently. */
  lemma DecimalInjective(m: nat, n: nat)
    requires Decimal(m) == Decimal(n)
    ensures m == n
  {
    DecimalRoundTrip(m);
    DecimalRoundTrip(n);
  }

  /** `name.split('.').pop()`: the text after the last dot, or the whole
      name when it has no dot. */
  function Extension(name: string): string {
    if name == [] then []
    else if name[|name| - 1] == '.' then []
    else Extension(name[..|name| - 1]) + [name[|name| - 1]]
  }

  /** The extension holds no dot and ends the name; it is the whole name
      when the name has no dot, and otherwise a dot stands right before it. */
  lemma {:induction false} ExtensionIsLastSegment(name: string)
    ensures var ext := Extension(name);
      && '.' !in ext
      && |ext| <= |name| && ext == name[|name| - |ext|..]
      && ('.' !in name ==> ext == name)
      && ('.' in name ==> |ext| < |name| && name[|name| - |ext| - 1] == '.')
  {
    if name != [] && name[|name| - 1] != '.' {
      var init := name[..|name| - 1];
      assert name == init + [name[|name| - 1]];
      ExtensionIsLastSegment(init);
    }
  }

  /** Whatever precedes the last dot, the extension is what follows it. */
  lemma {:induction false} ExtensionAfterDot(stem: string, ext: string)
    requires '.' !in ext
    ensures Extension(stem + "." + ext) == ext
  {
    if ext != [] {
      var last := ext[|ext| - 1];
      var init := ext[..|ext| - 1];
      assert stem + "." + ext == (stem + "." + init) + [last];
      assert (stem + "." + ext)[..|stem + "." + ext| - 1] == stem + "." + init;
      ExtensionAfterDot(stem, init);
      assert init + [last] == ext;
    }
  }

  /** The storage path of a document uploaded at `ts` from a file named `name`. */
  function StoragePath(kind: Kind, ts: nat, name: string): string {
    PathPrefix(kind) + Decimal(ts) + "." + Extension(name)
  }

  /** The stored object keeps the extension of the uploaded file. */
  lemma StoragePathKeepsExtension(kind: Kind, ts: nat, name: string)
    ensures Extension(StoragePath(kind, ts, name)) == Extension(name)
  {
    ExtensionIsLastSegment(name);
    ExtensionAfterDot(PathPrefix(kind) + Decimal(ts), Extension(name));
  }

  /** In `pre + d + "." + e` with `d` made of digits, the dot right after
      `d` is the first dot past `pre`, so `d` can be read back. */
  lemma DigitsBeforeDot(pre: string, d1: string, e1: string, d2: string, e2: string)
    requires forall i :: 0 <= i < |d1| ==> IsDigit(d1[i])
    requires forall i :: 0 <= i < |d2| ==> IsDigit(d2[i])
    requires pre + d1 + "." + e1 == pre + d2 + "." + e2
    ensures d1 == d2
  {
    var p := pre + d1 + "." + e1;
    assert p[|pre| + |d1|] == '.';
    assert forall i :: |pre| <= i < |pre| + |d1| ==> p[i] == d1[i - |pre|];
    assert p[|pre| + |d2|] == '.';
    assert forall i :: |pre| <= i < |pre| + |d2| ==> p[i] == d2[i - |pre|];
    assert |d1| == |d2|;
    assert p[|pre|..|pre| + |d1|] == d1;
    assert (pre + d2 + "." + e2)[|pre|..|pre| + |d2|] == d2;
  }

  /** Only the extension of the file name reaches the path: two uploads of
      the same kind, in the same millisecond and with the same extension
      collide, whatever the rest of their names. */
  lemma StoragePathIgnoresStem(kind: Kind, ts: nat, stem1: string, stem2: string, ext: string)
    requires '.' !in ext
    ensures StoragePath(kind, ts, stem1 + "." + ext) == StoragePath(kind, ts, stem2 + "." + ext)
  {
    ExtensionAfterDot(stem1, ext);
    ExtensionAfterDot(stem2, ext);
  }

  /** Two uploads share a path only if they are of the same kind and in the
      same millisecond: the path determines kind and timestamp. */
  lemma StoragePathsDistinct(k1: Kind, t1: nat, n1: string, k2: Kind, t2: nat, n2: string)
    requires k1 != k2 || t1 != t2
    ensures StoragePath(k1, t1, n1) != StoragePath(k2, t2, n2)
  {
    if k1 != k2 {
      assert StoragePath(k1, t1, n1)[0] != StoragePath(k2, t2, n2)[0];
    } else if StoragePath(k1, t1, n1) == StoragePath(k2, t2, n2) {
      DigitsBeforeDot(PathPrefix(k1), Decimal(t1), Extension(n1), Decimal(t2), Extension(n2));
      DecimalInjective(t1, t2);
    }
  }
}
