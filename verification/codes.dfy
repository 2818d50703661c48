/**
 * Item codes for the PDF extractor: six random digits, a bounded retry loop
 * that avoids codes already in use, a clock-based fallback, and the rule
 * that decides when a code read from the PDF must be replaced.
 *
 * Randomness is an input: `rand(n)` is the n-th digit that
 * `random.choices(string.digits)` draws. The clock is an input too.
 */
module Codes {
  import opened Text
  import opened Numbers

  /** One draw of `random.choices(string.digits)`. */
  type Digit = d: int | 0 <= d <= 9

  /** Attempts `gerar_codigo_unico` makes before it falls back to the clock. */
  const MaxTentativas: nat := 100

  function DigitChar(d: Digit): (c: char)
    ensures IsDigit(c) && DigitVal(c) == d
  {
    ('0' as int + d) as char
  }

  /** `gerar_codigo_numerico`: the six digits drawn from position `at` on. */
  function CodigoNumerico(rand: nat -> Digit, at: nat): (c: string)
    ensures |c| == 6 && AllDigits(c)
    ensures forall k | 0 <= k < 6 :: DigitVal(c[k]) == rand(at + k)
  {
    var c := seq(6, k requires 0 <= k < 6 => DigitChar(rand(at + k)));
    assert forall k | 0 <= k < 6 :: c[k] == DigitChar(rand(at + k));
    c
  }

  /** The code drawn by attempt `t` of a call that starts drawing at `at`. */
  function Tentativa(rand: nat -> Digit, at: nat, t: nat): string {
    CodigoNumerico(rand, at + 6 * t)
  }

  /** Attempt `t` is the first whose code is not in `existing`. */
  predicate PrimeiraLivre(existing: set<string>, rand: nat -> Digit, at: nat, t: nat) {
    Tentativa(rand, at, t) !in existing && forall u | 0 <= u < t :: Tentativa(rand, at, u) in existing
  }

  /** Python `f"{n:0{w}d}"` for a number below 10^w: its decimal digits, padded with zeros to width `w`. */
  function PadDigits(n: nat, w: nat): (s: string)
    ensures |s| == w && AllDigits(s)
  {
    if w == 0 then [] else PadDigits(n / 10, w - 1) + [DigitChar(n % 10)]
  }

  /** Splitting off the last decimal digit commutes with reduction modulo a power of ten. */
  lemma ModTen(n: nat, m: nat)
    requires m > 0
    ensures (n / 10 % m) * 10 + n % 10 == n % (10 * m)
  {
    var q, r := n / 10, n % 10;
    var k, s := q / m, q % m;
    assert n == (10 * m) * k + (10 * s + r);
    assert 0 <= 10 * s + r < 10 * m;
    DivModUnique(n, 10 * m, k, 10 * s + r);
  }

  lemma DivModUnique(n: int, d: int, k: int, x: int)
    requires d > 0 && n == d * k + x && 0 <= x < d
    ensures n % d == x
  {
    var k', x' := n / d, n % d;
    assert d * (k - k') == x' - x;
    MulBound(d, k - k');
  }

  lemma MulBound(d: int, e: int)
    requires d > 0
    ensures e >= 1 ==> d * e >= d
    ensures e <= -1 ==> d * e <= -d
  {
    if e >= 1 {
      assert d * e == d * (e - 1) + d;
    } else if e <= -1 {
      assert d * e == d * (e + 1) - d;
    }
  }

  /** Padding keeps the number modulo 10^w: the padded text reads back as `n % 10^w`. */
  lemma {:induction false} PadDigitsValue(n: nat, w: nat)
    ensures DigitsValue(PadDigits(n, w)) == n % Pow10(w)
  {
    if w > 0 {
      var p := PadDigits(n / 10, w - 1);
      var s := PadDigits(n, w);
      assert s[..|s| - 1] == p;
      PadDigitsValue(n / 10, w - 1);
      ModTen(n, Pow10(w - 1));
    }
  }

  /** The clock fallback `f"{int(now) % 1000000:06d}"`. */
  function CodigoDoRelogio(now: int): (c: string)
    ensures |c| == 6 && AllDigits(c)
  {
    PadDigits(now % 1000000, 6)
  }

  /** The clock fallback spells out the seconds modulo 1,000,000 in six digits. */
  lemma CodigoDoRelogioValue(now: int)
    ensures DigitsValue(CodigoDoRelogio(now)) == now % 1000000
  {
    PadDigitsValue(now % 1000000, 6);
    assert Pow10(6) == 1000000;
  }

  /**
   * `gerar_codigo_unico`: up to 100 attempts; the first code not in
   * `existing` is returned. When every attempt collides, the clock fallback
   * is returned without checking it against `existing`. `next` is the first
   * draw not consumed.
   */
  method GerarCodigoUnico(existing: set<string>, rand: nat -> Digit, at: nat, now: int)
    returns (codigo: string, next: nat)
    ensures |codigo| == 6 && AllDigits(codigo)
    ensures (exists t | 0 <= t < MaxTentativas ::
               PrimeiraLivre(existing, rand, at, t) && codigo == Tentativa(rand, at, t) && next == at + 6 * (t + 1))
            || ((forall t | 0 <= t < MaxTentativas :: Tentativa(rand, at, t) in existing)
                && codigo == CodigoDoRelogio(now) && next == at + 6 * MaxTentativas)
    ensures existing == {} ==> codigo == CodigoNumerico(rand, at) && next == at + 6
  {
    var t := 0;
    while t < MaxTentativas
      invariant 0 <= t <= MaxTentativas
      invariant forall u | 0 <= u < t :: Tentativa(rand, at, u) in existing
      invariant existing == {} ==> t == 0
    {
      var c := CodigoNumerico(rand, at + 6 * t);
      if c !in existing {
        assert PrimeiraLivre(existing, rand, at, t);
        return c, at + 6 * (t + 1);
      }
      t := t + 1;
    }
    assert Tentativa(rand, at, 0) in existing;
    return CodigoDoRelogio(now), at + 6 * MaxTentativas;
  }

  /** pdf_processor.py:261-268: the code read from the PDF is replaced when blank, too short, or a "PDF_" placeholder. */
  predicate PrecisaNovoCodigo(codigo: string) {
    codigo == [] || Strip(codigo) == [] || |Strip(codigo)| < 4 || StartsWith(codigo, "PDF_")
  }

  /** The blank tests are subsumed: a code is replaced exactly when it has fewer than four characters after stripping, or starts with "PDF_". */
  lemma PrecisaNovoCodigoIff(codigo: string)
    ensures PrecisaNovoCodigo(codigo) <==> |Strip(codigo)| < 4 || StartsWith(codigo, "PDF_")
  {
    if codigo == [] {
      assert |Strip(codigo)| <= 0;
    }
  }

  /** A generated code never needs replacing. */
  lemma CodigoNumericoAceito(c: string)
    requires |c| == 6 && AllDigits(c)
    ensures !PrecisaNovoCodigo(c)
  {
    assert IsDigit(c[0]) && IsDigit(c[5]);
    StripNoop(c);
    assert c[..4] != "PDF_" by { assert c[0] != 'P'; }
  }

  /**
   * The code repair of `processar_linha_produto`: a code that needs replacing
   * becomes a fresh `gerar_codigo_unico` code; any other code is kept and no
   * draw is consumed. The result never needs replacing again.
   */
  method RepararCodigo(codigo: string, existing: set<string>, rand: nat -> Digit, at: nat, now: int)
    returns (r: string, next: nat)
    ensures !PrecisaNovoCodigo(codigo) ==> r == codigo && next == at
    ensures PrecisaNovoCodigo(codigo) ==> |r| == 6 && AllDigits(r) && next > at
    ensures PrecisaNovoCodigo(codigo) && existing == {} ==> r == CodigoNumerico(rand, at) && next == at + 6
    ensures !PrecisaNovoCodigo(r)
  {
    if PrecisaNovoCodigo(codigo) {
      r, next := GerarCodigoUnico(existing, rand, at, now);
      CodigoNumericoAceito(r);
    } else {
      r, next := codigo, at;
    }
  }
}
