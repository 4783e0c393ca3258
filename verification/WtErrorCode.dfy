/** WebTransport application error codes on the wire (h3wt_callback.h; section 4.4 of
    draft-ietf-webtrans-http3): a 32-bit code travels as an HTTP/3 code in a range that skips the
    reserved codepoints 0x1f * N + 0x21. */
module WtErrorCode {
  const FIRST: nat := 0x52e4a40fa8db
  const LAST: nat := 0x52e5ac983162
  const MAX_APP: nat := 0xffff_ffff

  /** aiopquic_wt_code_to_h3; a code above 32 bits is an HTTP/3 code already. */
  function ToH3(code: nat): nat {
    if code > MAX_APP then code else FIRST + code + code / 0x1e
  }

  predicate Reserved(h: nat) { h >= 0x21 && (h - 0x21) % 0x1f == 0 }

  /** The codes that carry an application code. */
  predicate Carries(h: nat) { FIRST <= h <= LAST && !Reserved(h) }

  /** aiopquic_wt_code_from_h3. */
  function FromH3(h: nat): nat {
    if h < FIRST || h > LAST || (h - 0x21) % 0x1f == 0 then h
    else (h - FIRST) - (h - FIRST) / 0x1f
  }

  /** Reserved codepoints close each group of 31 from FIRST on. */
  lemma ReservedClosesGroup(q: nat, r: nat)
    requires r < 0x1f
    ensures Reserved(FIRST + 0x1f * q + r) <==> r == 0x1e
  {
    var base := FIRST + 0x1e - 0x21;
    assert base % 0x1f == 0;
    var h := FIRST + 0x1f * q + r - 0x21;
    assert h == 0x1f * (base / 0x1f + q) + r - 0x1e;
    if r == 0x1e {
      assert h % 0x1f == 0;
    } else {
      assert h == 0x1f * (base / 0x1f + q - 1) + (r + 1);
      assert h % 0x1f == r + 1;
    }
  }

  /** Encoding maps every application code into the carrying codes, and decoding inverts it. */
  lemma EncodeThenDecode(code: nat)
    requires code <= MAX_APP
    ensures Carries(ToH3(code)) && FromH3(ToH3(code)) == code
  {
    var q, r := code / 0x1e, code % 0x1e;
    assert ToH3(code) == FIRST + 0x1f * q + r;
    ReservedClosesGroup(q, r);
    assert (0x1f * q + r) / 0x1f == q;
  }

  /** It is onto: every carrying code decodes to an application code that encodes to it. */
  lemma DecodeThenEncode(h: nat)
    requires Carries(h)
    ensures FromH3(h) <= MAX_APP && ToH3(FromH3(h)) == h
  {
    var q, r := (h - FIRST) / 0x1f, (h - FIRST) % 0x1f;
    assert h == FIRST + 0x1f * q + r;
    ReservedClosesGroup(q, r);
    assert FromH3(h) == 0x1e * q + r;
    assert (0x1e * q + r) / 0x1e == q;
  }

  /** Every other code is delivered as received, and nothing else is. */
  lemma DecodeMovesExactlyCarriers(h: nat)
    ensures FromH3(h) == h <==> !Carries(h)
  {
    if Carries(h) {
      DecodeThenEncode(h);
    }
  }

  /** The round trip gives back the code that was sent, unless an HTTP/3 code was passed that lies
      in the carrying range. */
  lemma RoundTripExactly(code: nat)
    ensures FromH3(ToH3(code)) == code <==> (code <= MAX_APP || !Carries(code))
  {
    if code <= MAX_APP {
      EncodeThenDecode(code);
    } else {
      DecodeMovesExactlyCarriers(code);
    }
  }
}
