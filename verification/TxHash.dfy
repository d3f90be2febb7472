/** Transaction hashes as they are stored: `0x` and 64 lower-case hex digits. */
module TxHash {
  import opened Prelude
  import opened JsText

  type Hash = string

  predicate IsHex(c: char) { '0' <= c <= '9' || 'a' <= c <= 'f' || 'A' <= c <= 'F' }

  function LowerHex(c: char): (r: char)
    requires IsHex(c)
    ensures IsHex(r) && !('A' <= r <= 'F')
  {
    if 'A' <= c <= 'F' then 'a' + (c - 'A') else c
  }

  predicate AllHex(s: string) { forall i :: 0 <= i < |s| ==> IsHex(s[i]) }

  function Lowered(s: string): (r: string)
    requires AllHex(s)
    ensures |r| == |s| && forall i :: 0 <= i < |s| ==> r[i] == LowerHex(s[i])
  {
    if s == "" then "" else [LowerHex(s[0])] + Lowered(s[1..])
  }

  /** The 64 digits of `^(0x)?[0-9a-fA-F]{64}$`. */
  function Digits(s: string): (r: Option<string>)
    ensures r.Some? ==> |r.value| == 64 && AllHex(r.value)
  {
    if |s| == 64 && AllHex(s) then Some(s)
    else if |s| == 66 && s[..2] == "0x" && AllHex(s[2..]) then Some(s[2..])
    else None
  }

  function NormalizeTxHash(raw: string): Option<Hash> {
    match Digits(Trim(raw))
    case Some(digits) => Some("0x" + Lowered(digits))
    case None => None
  }

  predicate Canonical(h: Hash) {
    |h| == 66 && h[..2] == "0x" && forall i :: 2 <= i < 66 ==> IsHex(h[i]) && !('A' <= h[i] <= 'F')
  }

  /** Stored hashes are in one form, and that form is a fixed point: it normalises to itself. */
  lemma NormalFormIsFixed(raw: string)
    requires NormalizeTxHash(raw).Some?
    ensures var h := NormalizeTxHash(raw).value; Canonical(h) && NormalizeTxHash(h) == Some(h)
  {
    var digits := Digits(Trim(raw)).value;
    var h := "0x" + Lowered(digits);
    assert h[2..] == Lowered(digits);
    CanonicalIsFixed(h);
  }

  lemma HexIsNotSpace(c: char)
    requires IsHex(c)
    ensures !IsSpace(c)
  {
  }

  lemma CanonicalIsFixed(h: Hash)
    requires Canonical(h)
    ensures NormalizeTxHash(h) == Some(h)
  {
    hide Trim, IsSpace, Lowered;
    assert h[0] == '0' && h[1] == 'x' && !IsHex(h[1]) && IsHex(h[0]);
    assert Trim(h) == h by { HexIsNotSpace(h[0]); HexIsNotSpace(h[65]); TrimIsTrimmed(h); }
    var digits := h[2..];
    forall i | 0 <= i < 64 ensures IsHex(digits[i]) && LowerHex(digits[i]) == digits[i] {
      assert digits[i] == h[i + 2];
    }
    assert Digits(h) == Some(digits);
    assert Lowered(digits) == digits;
    assert h == "0x" + digits;
  }

  /** The same hex digit, up to letter case. */
  predicate SameDigit(a: char, b: char) {
    a == b || ('A' <= a <= 'F' && b as int == a as int + 32) || ('A' <= b <= 'F' && a as int == b as int + 32)
  }

  lemma LowerHexIsSameDigit(a: char, b: char)
    requires IsHex(a) && IsHex(b)
    ensures LowerHex(a) == LowerHex(b) <==> SameDigit(a, b)
  {
  }

  /** Two spellings are recorded as the same hash exactly when their digits agree up to letter case. */
  lemma SpellingsAgree(a: string, b: string)
    requires NormalizeTxHash(a).Some? && NormalizeTxHash(b).Some?
    ensures NormalizeTxHash(a) == NormalizeTxHash(b) <==>
      forall i :: 0 <= i < 64 ==> SameDigit(Digits(Trim(a)).value[i], Digits(Trim(b)).value[i])
  {
    hide Trim, Lowered, IsHex, LowerHex, SameDigit;
    var d, e := Digits(Trim(a)).value, Digits(Trim(b)).value;
    var x, y := Lowered(d), Lowered(e);
    assert ("0x" + x)[2..] == x && ("0x" + y)[2..] == y;
    assert x == y <==> forall i :: 0 <= i < 64 ==> x[i] == y[i];
    forall i | 0 <= i < 64 ensures x[i] == y[i] <==> SameDigit(d[i], e[i]) { LowerHexIsSameDigit(d[i], e[i]); }
  }

  /** 64 hex digits are a hash, with or without `0x` and whatever white space is around; letter case is dropped. */
  lemma DigitsAreAHash(before: string, digits: string, after: string)
    requires AllSpace(before) && AllSpace(after) && |digits| == 64 && AllHex(digits)
    ensures NormalizeTxHash(before + digits + after) == Some("0x" + Lowered(digits))
    ensures NormalizeTxHash(before + ("0x" + digits) + after) == Some("0x" + Lowered(digits))
  {
    hide Trim, IsSpace, Lowered;
    var h := "0x" + digits;
    assert h[0] == '0' && h[65] == digits[63] && h[2..] == digits && h[..2] == "0x";
    HexIsNotSpace(h[0]);
    HexIsNotSpace(digits[0]);
    HexIsNotSpace(digits[63]);
    TrimKeeps(before, digits, after);
    TrimKeeps(before, h, after);
  }

  /** And nothing else is one. */
  lemma WhenATextIsAHash(raw: string)
    ensures NormalizeTxHash(raw).Some? <==>
      exists digits :: |digits| == 64 && AllHex(digits) && (Trim(raw) == digits || Trim(raw) == "0x" + digits)
  {
    hide Trim, Lowered, IsHex;
    var t := Trim(raw);
    if Digits(t).Some? {
      var digits := Digits(t).value;
      assert |digits| == 64 && AllHex(digits) && (t == digits || t == "0x" + digits);
    }
    if digits :| |digits| == 64 && AllHex(digits) && (t == digits || t == "0x" + digits) {
      if t == "0x" + digits { assert t[2..] == digits && t[..2] == "0x"; }
    }
  }
}
