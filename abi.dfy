/** Cranelift's integer codegen types, the only word types the guest calling
    convention knows. */
module Codegen {

  datatype Type = I32 | I64

  /** Bit width of a codegen word. */
  function WordBits(c: Type): (b: nat)
    ensures b == 32 || b == 64
  {
    match c
    case I32 => 32
    case I64 => 64
  }
}

/** The `AbiRet` / `AbiParam` conversion layer of src/syscalls.rs:
    every native integer type the syscalls use is carried in one guest word,
    and the two conversions are Rust `as` casts. */
module Abi {
  import Codegen

  /** The native integer types for which `cast32!` and `cast64!` implement the traits. */
  datatype NativeTy = I8 | I16 | I32 | U8 | U16 | U32 | I64 | U64

  /** A native return type: a scalar, or Rust's unit `()`. */
  datatype RetTy = Scalar(ty: NativeTy) | Unit

  /** The widths Rust integer types come in. */
  type Width = b: nat | b == 8 || b == 16 || b == 32 || b == 64 witness 8

  /** 2 to the power of a width. */
  function Modulus(b: Width): (m: int)
    ensures m > 0
  {
    if b == 8 then 0x100
    else if b == 16 then 0x1_0000
    else if b == 32 then 0x1_0000_0000
    else 0x1_0000_0000_0000_0000
  }

  /** Half the modulus: the bound of the signed range. */
  function Half(b: Width): (h: int)
    ensures h > 0 && h + h == Modulus(b)
  {
    if b == 8 then 0x80
    else if b == 16 then 0x8000
    else if b == 32 then 0x8000_0000
    else 0x8000_0000_0000_0000
  }

  /** `x` is representable in a `b`-bit integer of the given signedness. */
  predicate Fits(x: int, b: Width, signed: bool) {
    if signed then -Half(b) <= x < Half(b) else 0 <= x < Modulus(b)
  }

  /** The low `b` bits of `x`, read unsigned: `x` modulo 2 to the power of `b`,
      taken by each width's literal modulus. */
  function Low(x: int, b: Width): (m: int)
    ensures 0 <= m < Modulus(b)
    ensures 0 <= x < Modulus(b) ==> m == x
    ensures x < 0 && 0 <= x + Modulus(b) ==> m == x + Modulus(b)
  {
    if b == 8 then x % 0x100
    else if b == 16 then x % 0x1_0000
    else if b == 32 then x % 0x1_0000_0000
    else x % 0x1_0000_0000_0000_0000
  }

  /** Rust's `x as T` between integer types: keep the low `b` bits and read
      them with the target's signedness. */
  function Cast(x: int, b: Width, signed: bool): (r: int)
    ensures Fits(r, b, signed)
    ensures Fits(x, b, signed) ==> r == x
    ensures signed && 0 <= x < Modulus(b) ==> r == (if x < Half(b) then x else x - Modulus(b))
    ensures !signed && x < 0 && 0 <= x + Modulus(b) ==> r == x + Modulus(b)
  {
    var m := Low(x, b);
    if signed && m >= Half(b) then m - Modulus(b) else m
  }

  /** The cast keeps `x` modulo 2 to the power of `b`: the two differ by a
      whole number of moduli. */
  lemma CastCongruent(x: int, b: Width, signed: bool)
    ensures (x - Cast(x, b, signed)) % Modulus(b) == 0
  {
    var m := Modulus(b);
    var r := Cast(x, b, signed);
    var q := x / m;
    assert x == m * q + Low(x, b);
    var k := if r == Low(x, b) then q else q + 1;
    assert x - r == m * k;
    MultipleMod(b, k);
  }

  lemma MultipleMod(b: Width, k: int)
    ensures (Modulus(b) * k) % Modulus(b) == 0
  {
    if b == 8 {
      assert (0x100 * k) % 0x100 == 0;
    } else if b == 16 {
      assert (0x1_0000 * k) % 0x1_0000 == 0;
    } else if b == 32 {
      assert (0x1_0000_0000 * k) % 0x1_0000_0000 == 0;
    } else {
      assert (0x1_0000_0000_0000_0000 * k) % 0x1_0000_0000_0000_0000 == 0;
    }
  }

  function Bits(t: NativeTy): Width {
    match t
    case I8 | U8 => 8
    case I16 | U16 => 16
    case I32 | U32 => 32
    case I64 | U64 => 64
  }

  predicate Signed(t: NativeTy) {
    t == I8 || t == I16 || t == I32 || t == I64
  }

  /** A value of native type `t`. */
  predicate InRange(t: NativeTy, x: int) {
    Fits(x, Bits(t), Signed(t))
  }

  /** A value of a guest word: `i32` or `i64`, as the `Abi` associated types are. */
  predicate InWord(c: Codegen.Type, w: int) {
    Fits(w, Codegen.WordBits(c), true)
  }

  /** `AbiParam::codegen_ty`: the narrowest guest word that holds the type. */
  function CodegenTy(t: NativeTy): (c: Codegen.Type)
    ensures Bits(t) <= Codegen.WordBits(c)
    ensures c == Codegen.I64 <==> Bits(t) > 32
  {
    match t
    case I8 | I16 | I32 | U8 | U16 | U32 => Codegen.I32
    case I64 | U64 => Codegen.I64
  }

  /** `AbiRet::codegen_tys`: one word for a scalar, none for `()`. */
  function CodegenTys(r: RetTy): (cs: seq<Codegen.Type>)
    ensures r.Unit? <==> cs == []
    ensures r.Scalar? ==> cs == [CodegenTy(r.ty)] && Bits(r.ty) <= Codegen.WordBits(cs[0])
  {
    match r
    case Scalar(t) => [CodegenTy(t)]
    case Unit => []
  }

  /** `AbiRet::convert`: `self as i32` or `self as i64`. */
  function ToWord(t: NativeTy, x: int): (w: int)
    requires InRange(t, x)
    ensures InWord(CodegenTy(t), w)
    ensures Bits(t) < 32 || Signed(t) ==> w == x
  {
    Cast(x, Codegen.WordBits(CodegenTy(t)), true)
  }

  /** `AbiParam::convert`: `param as T`. */
  function FromWord(t: NativeTy, w: int): (x: int)
    requires InWord(CodegenTy(t), w)
    ensures InRange(t, x)
    ensures InRange(t, w) ==> x == w
  {
    Cast(w, Bits(t), Signed(t))
  }

  /** Decoding an encoded value gives it back, for every value of every
      supported native type, the minimum and the maximum included. */
  lemma RoundTrip(t: NativeTy, x: int)
    requires InRange(t, x)
    ensures FromWord(t, ToWord(t, x)) == x
  {
    var w := ToWord(t, x);
    if !InRange(t, w) {
      // Only an unsigned type as wide as its word reaches here, and then the
      // word is x less one modulus.
      assert t == U32 || t == U64;
      assert w == x - Modulus(Bits(t));
    }
  }

  /** For a type exactly as wide as its word the conversion is a bijection:
      encoding a decoded word gives the word back. */
  lemma WordRoundTrip(t: NativeTy, w: int)
    requires Bits(t) == Codegen.WordBits(CodegenTy(t))
    requires InWord(CodegenTy(t), w)
    ensures ToWord(t, FromWord(t, w)) == w
  {
    var x := FromWord(t, w);
    if !Signed(t) && !InRange(t, w) {
      assert x == w + Modulus(Bits(t));
    }
  }

  /** For a narrower type, decoding truncates: the word 256 reads as the u8 0,
      so two distinct words decode to one value. */
  lemma NarrowDecodeTruncates()
    ensures FromWord(U8, 256) == 0 == FromWord(U8, 0)
    ensures FromWord(I8, 128) == -128
  {
  }

  /** The minimum and the maximum of every native type survive the round trip. */
  lemma ExtremesRoundTrip(t: NativeTy)
    ensures var lo := if Signed(t) then -Half(Bits(t)) else 0;
            var hi := if Signed(t) then Half(Bits(t)) - 1 else Modulus(Bits(t)) - 1;
            FromWord(t, ToWord(t, lo)) == lo && FromWord(t, ToWord(t, hi)) == hi
  {
    var lo := if Signed(t) then -Half(Bits(t)) else 0;
    var hi := if Signed(t) then Half(Bits(t)) - 1 else Modulus(Bits(t)) - 1;
    RoundTrip(t, lo);
    RoundTrip(t, hi);
  }
}
