// The software fallback (`arch::software`): the catalogue algorithms of the
// `crc` crate, the width dispatch of `update`, the per-width `update_u16`,
// `update_u32` and `update_u64`, and the caches of custom algorithms.
module Software {
  import opened Bits
  import opened Results
  import opened Rocksoft
  import opened Enums
  import opened Structs
  import opened Catalogue

  /** The build features the dispatch depends on: `alloc`, and whether a cache is built
    * (`std` or `cache`). */
  datatype Features = Features(alloc: bool, cache: bool)

  /** `update_u16`, `update_u32` and `update_u64`: run the register from `state` (reflected
    * first when the algorithm reflects its input) and strip `xorout` again, so that the
    * result is a register value that can be fed back in as the next `state`. */
  function UpdateWidth(a: Algorithm, state: bv64, data: seq<bv8>): bv64 {
    UpdateShape(a.width, a.poly, a.refin, a.refout, a.xorout, state, data)
  }

  /** `UpdateWidth` on the fields it reads. */
  function UpdateShape(w: Width, poly: bv64, refin: bool, refout: bool, xorout: bv64,
                       state: bv64, data: seq<bv8>): bv64 {
    var initial := if refin then Reflect(w, state) else state;
    Xorout(xorout, Output(w, refout, xorout, Run(w, poly, refin, initial, data)))
  }

  /** The width update is the `crc` crate's digest started from the (reflected) state,
    * with `xorout` taken off its result. */
  lemma UpdateWidthDigest(a: Algorithm, state: bv64, data: seq<bv8>)
    ensures UpdateWidth(a, state, data)
         == Xorout(a.xorout, DigestWithInitial(a, if a.refin then Reflect(a.width, state) else state, data))
  {
  }

  /** The state that denotes "nothing processed yet" for `a`. */
  function Seed(a: Algorithm): bv64 {
    if a.refin then Reflect(a.width, a.init) else a.init
  }

  /** The cache key of a custom parameter set (`Crc16Key`, `Crc32Key`, `Crc64Key`): its
    * fields truncated to the width. */
  datatype CacheKey = CacheKey(poly: bv64, init: bv64, refin: bool, refout: bool, xorout: bv64, check: bv64)

  function KeyOf(w: Width, p: CrcParams): CacheKey {
    CacheKey(Narrow(w, p.poly), Narrow(w, p.init), p.refin, p.refout, Narrow(w, p.xorout), Narrow(w, p.check))
  }

  /** The algorithm built (and leaked) for a key, with a zero residue. */
  function KeyAlgorithm(w: Width, k: CacheKey): Algorithm {
    Algorithm(w, k.poly, k.init, k.refin, k.refout, k.xorout, k.check, 0)
  }

  /** The selectors that take the custom branch at each width. */
  predicate CustomAt(w: Width, tag: CrcAlgorithm) {
    match w
    case W16 => tag == CrcCustom
    case W32 => tag == Crc32Custom || tag == CrcCustom
    case W64 => tag == Crc64Custom || tag == CrcCustom
  }

  /** The record carries the fields of catalogue algorithm `a`. */
  predicate Describes(r: CrcParams, a: Algorithm) {
    r.poly == a.poly && r.init == a.init && r.refin == a.refin
    && r.refout == a.refout && r.xorout == a.xorout && r.check == a.check
  }

  /** A catalogue selector whose algorithm has width `w`. */
  predicate NamedAt(w: Width, tag: CrcAlgorithm) {
    Named(w, tag).Some?
  }

  function InvalidAlgorithm(w: Width): string {
    match w
    case W16 => "Invalid algorithm for u16 CRC"
    case W32 => "Invalid algorithm for u32 CRC"
    case W64 => "Invalid algorithm for u64 CRC"
  }

  /** The algorithm `update` runs for `p`, or the panic it raises instead. */
  function Select(p: CrcParams, f: Features): Result<Algorithm> {
    match WidthOf(p.width as nat)
    case None => Panic("Unsupported CRC width: " + Decimal(p.width as nat))
    case Some(w) =>
      if NamedAt(w, p.algorithm) then Ok(Named(w, p.algorithm).value)
      else if CustomAt(w, p.algorithm) then
        if f.alloc then Ok(KeyAlgorithm(w, KeyOf(w, p)))
        else Panic("Custom CRC parameters require the 'alloc' feature")
      else Panic(InvalidAlgorithm(w))
  }

  /** `update(state, data, params)`: the state is truncated to the width (`state as u16`),
    * run through the width's update, and widened back to a `u64`. */
  function Update(state: bv64, data: seq<bv8>, p: CrcParams, f: Features): Result<bv64> {
    UpdateWith(state, data, Select(p, f))
  }

  /** The width update of the selected algorithm, or the panic of the selection. */
  function UpdateWith(state: bv64, data: seq<bv8>, r: Result<Algorithm>): Result<bv64> {
    match r
    case Panic(m) => Panic(m)
    case Ok(a) => Ok(UpdateWidth(a, Narrow(a.width, state), data))
  }

  /** `state as u16` (`as u32`, `as u64`): the state truncated to the register type. */
  function Narrow(w: Width, x: bv64): (r: bv64)
    ensures Fits(w, r)
    ensures Fits(w, x) ==> r == x
  {
    NarrowWith(Mask(w), x);
    x & Mask(w)
  }

  /** The cache entry a call to `update` looks up or inserts, if any. */
  function CacheUse(p: CrcParams, f: Features): Option<(Width, CacheKey)> {
    match WidthOf(p.width as nat)
    case None => None
    case Some(w) =>
      if !NamedAt(w, p.algorithm) && CustomAt(w, p.algorithm) && f.alloc && f.cache
      then Some((w, KeyOf(w, p))) else None
  }

  /** Every cached algorithm is the one its key describes. */
  ghost predicate Sound(w: Width, m: map<CacheKey, Algorithm>) {
    forall k | k in m :: m[k] == KeyAlgorithm(w, k)
  }

  /** A catalogue selector of the parameters' width runs its own algorithm and leaves the
    * caches alone. */
  lemma UpdateNamed(state: bv64, data: seq<bv8>, p: CrcParams, f: Features, w: Width)
    requires WidthOf(p.width as nat) == Some(w) && NamedAt(w, p.algorithm)
    ensures Update(state, data, p, f) == Ok(UpdateWidth(Named(w, p.algorithm).value, Narrow(w, state), data))
    ensures CacheUse(p, f).None?
  {
  }

  /** A custom selector with `alloc` runs the algorithm of its truncated key. */
  lemma UpdateCustom(state: bv64, data: seq<bv8>, p: CrcParams, f: Features, w: Width)
    requires WidthOf(p.width as nat) == Some(w) && !NamedAt(w, p.algorithm) && CustomAt(w, p.algorithm) && f.alloc
    ensures Update(state, data, p, f) == Ok(UpdateWidth(KeyAlgorithm(w, KeyOf(w, p)), Narrow(w, state), data))
    ensures CacheUse(p, f) == if f.cache then Some((w, KeyOf(w, p))) else None
  {
  }

  /** The raw register a width update returns: `xorout` added by `finalize` is taken out
    * again, leaving the (reflected, when `refout`) division register. */
  lemma UpdateWidthRegister(a: Algorithm, state: bv64, data: seq<bv8>)
    ensures var reg := Register(a, if a.refin then Reflect(a.width, state) else state, data);
      UpdateWidth(a, state, data) == if a.refout then Reflect(a.width, reg) else reg
  {
    var reg := Register(a, if a.refin then Reflect(a.width, state) else state, data);
    OutputStrip(a.width, a.refout, a.xorout, reg);
  }

  /** A width update returns a value of the register type whenever its state is one (the
    * reflected seed always is): the result is zero-extended into the `u64`. */
  lemma {:induction false} UpdateWidthFits(a: Algorithm, state: bv64, data: seq<bv8>)
    requires a.refin || Fits(a.width, state)
    ensures Fits(a.width, UpdateWidth(a, state, data))
  {
    var initial := if a.refin then Reflect(a.width, state) else state;
    RegisterFits(a, initial, data);
    UpdateWidthRegister(a, state, data);
  }

  /** Starting from the seed, stripping `xorout` and adding it back gives the catalogue
    * checksum: `update(seed, data) ^ xorout == checksum(data)`. */
  lemma UpdateWidthSeeded(a: Algorithm, data: seq<bv8>)
    requires Fits(a.width, a.init)
    ensures Xorout(a.xorout, UpdateWidth(a, Seed(a), data)) == Checksum(a, data)
  {
    if a.refin {
      ReflectInvolutive(a.width, a.init);
    }
    assert UpdateWidth(a, Seed(a), data) == Xorout(a.xorout, Checksum(a, data));
    XoroutTwice(a.xorout, Checksum(a, data));
  }

  /** Feeding the result of one update into the next is one update over the concatenated
    * input, for algorithms that reflect input and output alike. */
  lemma UpdateWidthChains(a: Algorithm, state: bv64, s: seq<bv8>, t: seq<bv8>)
    requires a.refin == a.refout && Fits(a.width, state)
    ensures UpdateWidth(a, UpdateWidth(a, state, s), t) == UpdateWidth(a, state, s + t)
  {
    var initial := if a.refin then Reflect(a.width, state) else state;
    var mid := Register(a, initial, s);
    RegisterFits(a, initial, s);
    UpdateWidthRegister(a, state, s);
    UpdateWidthRegister(a, UpdateWidth(a, state, s), t);
    UpdateWidthRegister(a, state, s + t);
    if a.refin {
      ReflectInvolutive(a.width, mid);
    }
    RegisterAppend(a, initial, s, t);
  }

  /** The result depends on nothing but the width, polynomial, reflection and `xorout`:
    * `init`, `check` and `residue` are not read. */
  lemma UpdateWidthDependsOnShape(a: Algorithm, b: Algorithm, state: bv64, data: seq<bv8>)
    requires a.width == b.width && a.poly == b.poly && a.refin == b.refin
    requires a.refout == b.refout && a.xorout == b.xorout
    ensures UpdateWidth(a, state, data) == UpdateWidth(b, state, data)
  {
  }

  /** `update` panics exactly when the width is unsupported, the selector belongs to no
    * branch of its width, or custom parameters meet a build without `alloc`. */
  lemma SelectPanics(p: CrcParams, f: Features)
    ensures Select(p, f).Panic? <==>
      WidthOf(p.width as nat).None?
      || (!NamedAt(WidthOf(p.width as nat).value, p.algorithm)
          && (!CustomAt(WidthOf(p.width as nat).value, p.algorithm) || !f.alloc))
  {
  }

  /** The algorithm run has the width of the parameters, and a catalogue selector runs the
    * catalogue entry of that width. */
  lemma SelectWidth(p: CrcParams, f: Features)
    requires Select(p, f).Ok?
    ensures WidthOf(p.width as nat) == Some(Select(p, f).value.width)
    ensures !IsCustom(p.algorithm) ==> Named(Select(p, f).value.width, p.algorithm) == Some(Select(p, f).value)
  {
  }

  /** Every result of a width update on a truncated state is a value of the register type. */
  lemma UpdateWithFits(state: bv64, data: seq<bv8>, r: Result<Algorithm>)
    requires r.Ok?
    ensures UpdateWith(state, data, r).Ok? && Fits(r.value.width, UpdateWith(state, data, r).value)
  {
    var a := r.value;
    UpdateWidthFits(a, Narrow(a.width, state), data);
  }

  /** Every result of `update` is a value of the parameters' register type. */
  lemma UpdateFits(state: bv64, data: seq<bv8>, p: CrcParams, f: Features)
    requires Update(state, data, p, f).Ok?
    ensures Fits(Select(p, f).value.width, Update(state, data, p, f).value)
  {
    UpdateWithFits(state, data, Select(p, f));
  }

  /** From the seed, a width update with `xorout` added back is the checksum. */
  lemma UpdateWithSeeded(a: Algorithm, data: seq<bv8>)
    requires Fits(a.width, a.init)
    ensures UpdateWith(Seed(a), data, Ok(a)) == Ok(Xorout(a.xorout, Checksum(a, data)))
  {
    SeedFits(a);
    UpdateWidthSeeded(a, data);
    XoroutTwice(a.xorout, UpdateWidth(a, Seed(a), data));
  }


  /** The seed of a well-formed algorithm is a value of its register type. */
  lemma SeedFits(a: Algorithm)
    requires Fits(a.width, a.init)
    ensures Fits(a.width, Seed(a))
  {
  }

  /** Every algorithm `update` selects has an `init` of its register type: the catalogue
    * entries are well formed and a custom key is truncated to the width. */
  lemma SelectInitFits(p: CrcParams, f: Features)
    requires Select(p, f).Ok?
    ensures Fits(Select(p, f).value.width, Select(p, f).value.init)
  {
  }

  /** Seeded with `Seed(a)` for the algorithm `a` it runs, `update` with `xorout` added back
    * is the catalogue checksum of the data; over "123456789" that is the recorded check of a
    * catalogue entry (`Catalogued`). */
  lemma UpdateSeeded(p: CrcParams, f: Features, data: seq<bv8>)
    requires Select(p, f).Ok?
    ensures var a := Select(p, f).value;
      Update(Seed(a), data, p, f) == Ok(Xorout(a.xorout, Checksum(a, data)))
  {
    SelectInitFits(p, f);
    UpdateWithSeeded(Select(p, f).value, data);
  }

  lemma UpdateWithChains(state: bv64, s: seq<bv8>, t: seq<bv8>, r: Result<Algorithm>)
    requires r.Ok? && r.value.refin == r.value.refout
    ensures UpdateWith(state, s, r).Ok?
    ensures UpdateWith(UpdateWith(state, s, r).value, t, r) == UpdateWith(state, s + t, r)
  {
    var a := r.value;
    var n := Narrow(a.width, state);
    UpdateWidthFits(a, n, s);
    UpdateWidthChains(a, n, s, t);
  }

  /** Successive `update` calls compose: feeding the result back in continues the CRC over
    * the concatenated input. */
  lemma UpdateChains(state: bv64, s: seq<bv8>, t: seq<bv8>, p: CrcParams, f: Features)
    requires Select(p, f).Ok? && Select(p, f).value.refin == Select(p, f).value.refout
    ensures Update(state, s, p, f).Ok?
    ensures Update(Update(state, s, p, f).value, t, p, f) == Update(state, s + t, p, f)
  {
    UpdateWithChains(state, s, t, Select(p, f));
  }

  lemma UpdateWithDependsOnShape(state: bv64, data: seq<bv8>, r: Result<Algorithm>, q: Result<Algorithm>)
    requires r.Ok? && q.Ok?
    requires var a := r.value; var b := q.value;
      a.width == b.width && a.poly == b.poly && a.refin == b.refin && a.refout == b.refout && a.xorout == b.xorout
    ensures UpdateWith(state, data, r) == UpdateWith(state, data, q)
  {
    UpdateWidthDependsOnShape(r.value, q.value, Narrow(r.value.width, state), data);
  }

  /** Custom parameters equal to a catalogue entry compute what the catalogue selector
    * computes. */
  lemma CustomMatchesNamed(state: bv64, data: seq<bv8>, p: CrcParams, q: CrcParams, f: Features)
    requires CustomAt(W32, p.algorithm) || CustomAt(W16, p.algorithm) || CustomAt(W64, p.algorithm)
    requires Select(p, f).Ok? && Select(q, f).Ok? && !IsCustom(q.algorithm)
    requires var a := Select(p, f).value; var b := Select(q, f).value;
      a.width == b.width && a.poly == b.poly && a.refin == b.refin && a.refout == b.refout && a.xorout == b.xorout
    ensures Update(state, data, p, f) == Update(state, data, q, f)
  {
    UpdateWithDependsOnShape(state, data, Select(p, f), Select(q, f));
  }

  /** At width 32 `Crc32Custom` and `CrcCustom` take the same branch: the same algorithm,
    * the same cache and the same key. */
  lemma Crc32CustomShared(p: CrcParams, f: Features)
    requires p.width == 32 && p.algorithm == Crc32Custom
    ensures Select(p, f) == Select(p.(algorithm := CrcCustom), f)
    ensures CacheUse(p, f) == CacheUse(p.(algorithm := CrcCustom), f)
  {
  }

  /** The cache key keeps every truncated field, so parameters that differ only in `check`
    * get entries of their own. */
  lemma KeyOfSeparatesCheck(w: Width, p: CrcParams, q: CrcParams)
    requires p.poly == q.poly && p.init == q.init && p.refin == q.refin && p.refout == q.refout
    requires p.xorout == q.xorout
    ensures KeyOf(w, p) == KeyOf(w, q) <==> Narrow(w, p.check) == Narrow(w, q.check)
  {
  }

  /** `CUSTOM_CRC16_CACHE`, `CUSTOM_CRC32_CACHE` and `CUSTOM_CRC64_CACHE`. */
  class CustomCaches {
    var crc16: map<CacheKey, Algorithm>
    var crc32: map<CacheKey, Algorithm>
    var crc64: map<CacheKey, Algorithm>

    ghost predicate Valid()
      reads this
    {
      Sound(W16, crc16) && Sound(W32, crc32) && Sound(W64, crc64)
    }

    /** The cache of width `w`. */
    function Table(w: Width): map<CacheKey, Algorithm>
      reads this
    {
      match w
      case W16 => crc16
      case W32 => crc32
      case W64 => crc64
    }

    constructor ()
      ensures Valid()
      ensures Table(W16) == map[] && Table(W32) == map[] && Table(W64) == map[]
    {
      crc16, crc32, crc64 := map[], map[], map[];
    }

    /** `cache.entry(key).or_insert_with(..)`: the cached algorithm, inserted first when the
      * key is new. An existing entry is never replaced. */
    method Entry(w: Width, key: CacheKey) returns (a: Algorithm)
      requires Valid()
      modifies this
      ensures Valid()
      ensures a == KeyAlgorithm(w, key)
      ensures Table(w) == old(Table(w))[key := a]
      ensures forall v :: v != w ==> Table(v) == old(Table(v))
    {
      match w
      case W16 =>
        if key in crc16 { a := crc16[key]; } else { a := KeyAlgorithm(w, key); crc16 := crc16[key := a]; }
      case W32 =>
        if key in crc32 { a := crc32[key]; } else { a := KeyAlgorithm(w, key); crc32 := crc32[key := a]; }
      case W64 =>
        if key in crc64 { a := crc64[key]; } else { a := KeyAlgorithm(w, key); crc64 := crc64[key := a]; }
    }

    /** `update` with the caches in place: the result is the cache-free `Update`, and only
      * the entry `CacheUse` names is added. */
    method UpdateWithCache(state: bv64, data: seq<bv8>, p: CrcParams, f: Features) returns (r: Result<bv64>)
      requires Valid()
      modifies this
      ensures Valid()
      ensures r == Update(state, data, p, f)
      ensures CacheUse(p, f).Some? ==> (
        var (w, k) := CacheUse(p, f).value;
        Table(w) == old(Table(w))[k := KeyAlgorithm(w, k)]
        && forall v :: v != w ==> Table(v) == old(Table(v)))
      ensures CacheUse(p, f).None? ==> forall v :: Table(v) == old(Table(v))
    {
      var width := WidthOf(p.width as nat);
      if width.None? {
        return Panic("Unsupported CRC width: " + Decimal(p.width as nat));
      }
      var w := width.value;
      if NamedAt(w, p.algorithm) {
        var a := Named(w, p.algorithm).value;
        UpdateNamed(state, data, p, f, w);
        return Ok(UpdateWidth(a, Narrow(w, state), data));
      }
      if !CustomAt(w, p.algorithm) {
        return Panic(InvalidAlgorithm(w));
      }
      if !f.alloc {
        return Panic("Custom CRC parameters require the 'alloc' feature");
      }
      var key := KeyOf(w, p);
      var a: Algorithm;
      if f.cache {
        a := Entry(w, key);
      } else {
        a := KeyAlgorithm(w, key);
      }
      UpdateCustom(state, data, p, f, w);
      r := Ok(UpdateWidth(a, Narrow(w, state), data));
    }
  }
}
