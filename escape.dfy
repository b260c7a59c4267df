/**
 * Percent-decoding of image URLs: Go's url.PathUnescape (section 2.1 of
 * RFC 3986, path-segment mode) and the client's conditional wrapper around it.
 * The decoder is a left-to-right scan over positions of its input.
 */
module Escape {
  import opened Wrappers
  import opened Text

  function HexValue(c: char): (v: nat)
    requires IsHexDigit(c)
    ensures v < 16
  {
    if IsDigit(c) then DigitValue(c)
    else if 'a' <= c <= 'f' then c as int - 'a' as int + 10
    else c as int - 'A' as int + 10
  }

  /** The byte that the escape `%hl` stands for. */
  function EscapedByte(h: char, l: char): (b: char)
    requires IsHexDigit(h) && IsHexDigit(l)
    ensures b as int < 256
  {
    (16 * HexValue(h) + HexValue(l)) as char
  }

  /** A complete `%HH` escape starts at position `i` of `s`. */
  predicate EscapeAt(s: string, i: nat)
  {
    i + 3 <= |s| && s[i] == '%' && IsHexDigit(s[i + 1]) && IsHexDigit(s[i + 2])
  }

  /**
   * From position `i` on, every `%` that a left-to-right scan meets starts a
   * complete escape (a `%` inside an escape's two digits is never met).
   */
  predicate WellEscapedFrom(s: string, i: nat)
    decreases |s| - i
  {
    if i >= |s| then true
    else if s[i] == '%' then EscapeAt(s, i) && WellEscapedFrom(s, i + 3)
    else WellEscapedFrom(s, i + 1)
  }

  predicate WellEscaped(s: string) { WellEscapedFrom(s, 0) }

  /**
   * The scan of url.PathUnescape from position `i` on. Each `%HH` becomes
   * the byte it names, `+` and every other character are copied, and the
   * first `%` not followed by two hex digits is an error carrying at most
   * three characters from that `%` on.
   */
  function UnescapeFrom(s: string, i: nat): (r: Result<string, string>)
    requires i <= |s|
    ensures r.Ok? <==> WellEscapedFrom(s, i)
    ensures r.Ok? ==> |r.value| <= |s| - i
    ensures r.Err? ==> 1 <= |r.error| <= 3 && r.error[0] == '%'
    decreases |s| - i
  {
    if i == |s| then Ok([])
    else if s[i] == '%' then
      if !EscapeAt(s, i) then Err(s[i..if |s| < i + 3 then |s| else i + 3])
      else match UnescapeFrom(s, i + 3)
        case Ok(rest) => Ok([EscapedByte(s[i + 1], s[i + 2])] + rest)
        case Err(e) => Err(e)
    else match UnescapeFrom(s, i + 1)
      case Ok(rest) => Ok([s[i]] + rest)
      case Err(e) => Err(e)
  }

  /** url.PathUnescape: the scan from the start. */
  function PathUnescape(s: string): (r: Result<string, string>)
    ensures r.Ok? <==> WellEscaped(s)
    ensures r.Ok? ==> |r.value| <= |s|
    ensures r.Err? ==> 1 <= |r.error| <= 3 && r.error[0] == '%'
  {
    UnescapeFrom(s, 0)
  }

  /** unescapeImage (client.go): decode only what starts with `http%`, and never fail. */
  function UnescapeImage(s: string): (r: string)
    ensures !HasPrefix(s, "http%") ==> r == s
    ensures PathUnescape(s).Err? ==> r == s
    ensures HasPrefix(s, "http%") && PathUnescape(s).Ok? ==> r == PathUnescape(s).value
  {
    if !HasPrefix(s, "http%") then s
    else match PathUnescape(s)
      case Ok(v) => v
      case Err(_) => s
  }

  // ---- A reference encoder, the partner of PathUnescape ----

  predicate IsByteString(b: string) { forall i :: 0 <= i < |b| ==> b[i] as int < 256 }

  function HexDigitChar(v: nat): (c: char)
    requires v < 16
    ensures IsHexDigit(c) && HexValue(c) == v
  {
    if v < 10 then DigitChar(v) else (v - 10 + 'A' as int) as char
  }

  /** The upper-case `%HH` escape of byte `c`. */
  function EscapeByte(c: char): (e: string)
    requires c as int < 256
    ensures EscapeAt(e, 0) && |e| == 3
    ensures EscapedByte(e[1], e[2]) == c
  {
    HexDigitsOfByte(c);
    ['%', HexDigitChar(c as int / 16), HexDigitChar(c as int % 16)]
  }

  /** Writes every byte as an upper-case `%HH` escape. */
  function EscapeAll(b: string): (s: string)
    requires IsByteString(b)
    ensures |s| == 3 * |b|
  {
    if b == [] then [] else EscapeByte(b[0]) + EscapeAll(b[1..])
  }

  /** The two hex digits of a byte name that byte. */
  lemma HexDigitsOfByte(c: char)
    requires c as int < 256
    ensures EscapedByte(HexDigitChar(c as int / 16), HexDigitChar(c as int % 16)) == c
  {
  }

  /** One step of the scan over a complete escape. */
  lemma UnescapeEscapeStep(s: string, i: nat, c: char, rest: string)
    requires EscapeAt(s, i) && EscapedByte(s[i + 1], s[i + 2]) == c
    requires UnescapeFrom(s, i + 3) == Ok(rest)
    ensures UnescapeFrom(s, i) == Ok([c] + rest)
  {
  }

  /** Decoding undoes the reference encoder for every byte string. */
  lemma {:induction false} UnescapeEscapeAll(b: string)
    requires IsByteString(b)
    ensures PathUnescape(EscapeAll(b)) == Ok(b)
    decreases |b|
  {
    if b != [] {
      var e, t := EscapeByte(b[0]), EscapeAll(b[1..]);
      var s := e + t;
      UnescapeEscapeAll(b[1..]);
      UnescapeShift(e, t, 0);
      assert s[..3] == e;
      UnescapeEscapeStep(s, 0, b[0], b[1..]);
      assert b == [b[0]] + b[1..];
    }
  }

  lemma {:induction false} UnescapeWithoutPercentFrom(s: string, i: nat)
    requires '%' !in s && i <= |s|
    ensures UnescapeFrom(s, i) == Ok(s[i..])
    decreases |s| - i
  {
    if i == |s| {
      assert s[i..] == [];
    } else {
      UnescapeWithoutPercentFrom(s, i + 1);
      assert s[i..] == [s[i]] + s[i + 1..];
    }
  }

  /** A string without `%` decodes to itself; in particular `+` stays `+`. */
  lemma UnescapeWithoutPercent(s: string)
    requires '%' !in s
    ensures PathUnescape(s) == Ok(s)
  {
    UnescapeWithoutPercentFrom(s, 0);
  }

  /** The scan of `p + b` past `p` is the scan of `b`. */
  lemma {:induction false} UnescapeShift(p: string, b: string, j: nat)
    requires j <= |b|
    ensures UnescapeFrom(p + b, |p| + j) == UnescapeFrom(b, j)
    decreases |b| - j
  {
    var s := p + b;
    if j < |b| {
      assert forall m :: j <= m < |b| ==> s[|p| + m] == b[m];
      if b[j] == '%' {
        if EscapeAt(b, j) {
          UnescapeShift(p, b, j + 3);
        } else {
          var e := if |b| < j + 3 then |b| else j + 3;
          assert s[|p| + j..|p| + e] == b[j..e];
        }
      } else {
        UnescapeShift(p, b, j + 1);
      }
    }
  }

  lemma {:induction false} UnescapeAppendFrom(a: string, b: string, i: nat)
    requires i <= |a| && UnescapeFrom(a, i).Ok? && PathUnescape(b).Ok?
    ensures UnescapeFrom(a + b, i) == Ok(UnescapeFrom(a, i).value + PathUnescape(b).value)
    decreases |a| - i
  {
    var s, y := a + b, PathUnescape(b).value;
    if i == |a| {
      UnescapeShift(a, b, 0);
      assert [] + y == y;
    } else {
      assert s[i] == a[i];
      if a[i] == '%' {
        assert s[i + 1] == a[i + 1] && s[i + 2] == a[i + 2];
        UnescapeAppendFrom(a, b, i + 3);
        var c, x := EscapedByte(a[i + 1], a[i + 2]), UnescapeFrom(a, i + 3).value;
        assert [c] + (x + y) == ([c] + x) + y;
      } else {
        UnescapeAppendFrom(a, b, i + 1);
        var x := UnescapeFrom(a, i + 1).value;
        assert [a[i]] + (x + y) == ([a[i]] + x) + y;
      }
    }
  }

  /** Decoding a well-escaped prefix and the rest separately gives the same result. */
  lemma UnescapeAppend(a: string, b: string)
    requires PathUnescape(a).Ok? && PathUnescape(b).Ok?
    ensures PathUnescape(a + b) == Ok(PathUnescape(a).value + PathUnescape(b).value)
  {
    UnescapeAppendFrom(a, b, 0);
  }

  /** A malformed escape leaves the image URL exactly as it was. */
  lemma MalformedImageUnchanged()
    ensures UnescapeImage("http%zz") == "http%zz"
    ensures UnescapeImage("http%4") == "http%4"
  {
    var s, t := "http%zz", "http%4";
    assert !EscapeAt(s, 4) && !EscapeAt(t, 4);
    assert !WellEscapedFrom(s, 2) && !WellEscapedFrom(t, 2);
  }

  /** `%2f` decodes to `/`. */
  lemma UnescapeSlash(r: string)
    requires PathUnescape(r).Ok?
    ensures PathUnescape("%2f" + r) == Ok("/" + PathUnescape(r).value)
  {
    assert HexValue('2') == 2 && HexValue('f') == 15;
    assert EscapeAt("%2f", 0) && EscapedByte('2', 'f') == '/';
    assert UnescapeFrom("%2f", 3) == Ok([]);
    assert UnescapeFrom("%2f", 0) == Ok(['/'] + []);
    assert ['/'] + [] == "/";
    UnescapeAppend("%2f", r);
  }

  /** `%3a` decodes to `:`. */
  lemma UnescapeColon(r: string)
    requires PathUnescape(r).Ok?
    ensures PathUnescape("%3a" + r) == Ok(":" + PathUnescape(r).value)
  {
    assert HexValue('3') == 3 && HexValue('a') == 10;
    assert EscapeAt("%3a", 0) && EscapedByte('3', 'a') == ':';
    assert UnescapeFrom("%3a", 3) == Ok([]);
    assert UnescapeFrom("%3a", 0) == Ok([':'] + []);
    assert [':'] + [] == ":";
    UnescapeAppend("%3a", r);
  }

  lemma UnescapePlain(p: string, r: string)
    requires '%' !in p && PathUnescape(r).Ok?
    ensures PathUnescape(p + r) == Ok(p + PathUnescape(r).value)
  {
    UnescapeWithoutPercent(p);
    UnescapeAppend(p, r);
  }

  /** Path segments joined by a separator: `segs[0] + sep + segs[1] + ...`. */
  function JoinWith(segs: seq<string>, sep: string): string
  {
    if segs == [] then ""
    else if |segs| == 1 then segs[0]
    else segs[0] + sep + JoinWith(segs[1..], sep)
  }

  lemma UnescapeSegmentThenSlash(a: string, rest: string)
    requires '%' !in a && PathUnescape(rest).Ok?
    ensures PathUnescape(a + "%2f" + rest) == Ok(a + "/" + PathUnescape(rest).value)
  {
    UnescapeSlash(rest);
    UnescapePlain(a, "%2f" + rest);
    assert a + "%2f" + rest == a + ("%2f" + rest);
    assert a + "/" + PathUnescape(rest).value == a + ("/" + PathUnescape(rest).value);
  }

  /** Segments free of `%` joined by escaped slashes decode to the segments joined by `/`. */
  lemma {:induction false} UnescapeJoinedSegments(segs: seq<string>)
    requires forall i :: 0 <= i < |segs| ==> '%' !in segs[i]
    ensures PathUnescape(JoinWith(segs, "%2f")) == Ok(JoinWith(segs, "/"))
  {
    if segs == [] {
      UnescapeWithoutPercent("");
    } else if |segs| == 1 {
      UnescapeWithoutPercent(segs[0]);
    } else {
      var tail := segs[1..];
      assert forall i :: 0 <= i < |tail| ==> '%' !in tail[i] by {
        forall i | 0 <= i < |tail| ensures '%' !in tail[i] { assert tail[i] == segs[i + 1]; }
      }
      UnescapeJoinedSegments(tail);
      assert '%' !in segs[0];
      UnescapeSegmentThenSlash(segs[0], JoinWith(tail, "%2f"));
    }
  }

  /**
   * The shape of the client's own test input: a double-encoded `http://`
   * URL whose path separators are `%2f` decodes to the plain URL, as in
   * `http%3a%2f%2fpsref.lenovo.com%2fsyspool...` becoming
   * `http://psref.lenovo.com/syspool...`.
   */
  lemma DoubleEncodedImage(segs: seq<string>)
    requires forall i :: 0 <= i < |segs| ==> '%' !in segs[i]
    ensures UnescapeImage("http%3a%2f%2f" + JoinWith(segs, "%2f")) == "http://" + JoinWith(segs, "/")
  {
    var rest := JoinWith(segs, "%2f");
    UnescapeJoinedSegments(segs);
    UnescapeScheme();
    UnescapeAppend("http%3a%2f%2f", rest);
    var s := "http%3a%2f%2f" + rest;
    assert s[..5] == "http%";
  }

  lemma UnescapeScheme()
    ensures PathUnescape("http%3a%2f%2f") == Ok("http://")
  {
    UnescapeWithoutPercent("");
    UnescapeSlash("");
    assert "%2f" + "" == "%2f" && "/" + "" == "/";
    UnescapeSlash("%2f");
    assert "%2f" + "%2f" == "%2f%2f" && "/" + "/" == "//";
    UnescapeColon("%2f%2f");
    assert "%3a" + "%2f%2f" == "%3a%2f%2f" && ":" + "//" == "://";
    UnescapePlain("http", "%3a%2f%2f");
    assert "http" + "%3a%2f%2f" == "http%3a%2f%2f" && "http" + "://" == "http://";
  }

  /** `http%2541` decodes to `http%41`: the escaped `%` rebuilds the `http%` prefix. */
  lemma UnescapeOnce()
    ensures UnescapeImage("http%2541") == "http%41"
  {
    assert HexValue('2') == 2 && HexValue('5') == 5;
    assert EscapeAt("%25", 0) && EscapedByte('2', '5') == '%';
    assert UnescapeFrom("%25", 3) == Ok([]);
    assert UnescapeFrom("%25", 0) == Ok(['%'] + []);
    assert ['%'] + [] == "%";
    UnescapeWithoutPercent("41");
    UnescapeAppend("%25", "41");
    assert "%25" + "41" == "%2541" && "%" + "41" == "%41";
    UnescapePlain("http", "%2541");
    assert "http" + "%2541" == "http%2541" && "http" + "%41" == "http%41";
    assert "http%2541"[..5] == "http%";
  }

  /** `http%41` decodes to `httpA`. */
  lemma UnescapeTwice()
    ensures UnescapeImage("http%41") == "httpA"
  {
    assert HexValue('4') == 4 && HexValue('1') == 1;
    assert EscapeAt("%41", 0) && EscapedByte('4', '1') == 'A';
    assert UnescapeFrom("%41", 3) == Ok([]);
    assert UnescapeFrom("%41", 0) == Ok(['A'] + []);
    assert ['A'] + [] == "A";
    UnescapePlain("http", "%41");
    assert "http" + "%41" == "http%41" && "http" + "A" == "httpA";
    assert "http%41"[..5] == "http%";
  }

  /**
   * Decoding is not idempotent: an escaped `%` can rebuild the `http%` prefix,
   * and the second call then decodes again.
   */
  lemma UnescapeImageNotIdempotent()
    ensures UnescapeImage("http%2541") == "http%41"
    ensures UnescapeImage(UnescapeImage("http%2541")) == "httpA"
  {
    UnescapeOnce();
    UnescapeTwice();
  }

  /** Once the result no longer starts with `http%`, a second call changes nothing. */
  lemma UnescapeImageSettles(s: string)
    requires !HasPrefix(UnescapeImage(s), "http%")
    ensures UnescapeImage(UnescapeImage(s)) == UnescapeImage(s)
  {
  }
}
