/** The sprite-sheet converter (tools/json-css-to-ron): for each input line,
    a map of CSS sprite descriptions becomes a sprite sheet whose texture is
    just large enough for every sprite.

    Text is a sequence of UTF-8 bytes, as the tool's string slicing is: a
    slice that does not fall on a character boundary panics. A panic of the
    tool (an out-of-range index, a bad slice, `unwrap` of an error, an
    arithmetic overflow) is the `Panic` outcome. */
module CssToRon {

  type Byte = b: int | 0 <= b < 256

  const U16Max: nat := 65535

  type U16 = n: int | 0 <= n <= U16Max

  const Space: Byte := 32
  const Plus: Byte := 43
  const Minus: Byte := 45
  const Zero: Byte := 48

  /** The unit suffix the tool expects, "px". */
  const Px: seq<Byte> := [112, 120]

  /** `ParseIntError`'s kinds that parsing an unsigned number can report. */
  datatype ParseError = Empty | InvalidDigit | PosOverflow

  datatype Outcome<T> = Ok(value: T) | Err(error: ParseError) | Panic

  datatype Option<T> = None | Some(value: T)

  // ---------------------------------------------------------------------------
  // Bytes, digits and decimal numbers.

  predicate IsDigit(c: Byte)
  {
    Zero <= c <= Zero + 9
  }

  predicate AllDigits(s: seq<Byte>)
  {
    forall i | 0 <= i < |s| :: IsDigit(s[i])
  }

  /** A UTF-8 continuation byte: never the first byte of a character. */
  predicate IsContinuation(c: Byte)
  {
    0x80 <= c < 0xC0
  }

  /** `str::is_char_boundary`: slicing a string at `i` does not panic. */
  predicate IsCharBoundary(s: seq<Byte>, i: nat)
  {
    i == 0 || i == |s| || (i < |s| && !IsContinuation(s[i]))
  }

  function Pow10(n: nat): (p: nat)
    ensures p >= 1
  {
    if n == 0 then 1 else 10 * Pow10(n - 1)
  }

  /** The number a string of decimal digits denotes. */
  function DecimalValue(s: seq<Byte>): nat
    requires AllDigits(s)
    decreases |s|
  {
    if s == [] then 0 else DecimalValue(s[..|s| - 1]) * 10 + (s[|s| - 1] - Zero)
  }

  /** `n.to_string()`: the shortest decimal digits of `n`. */
  function Decimal(n: nat): (s: seq<Byte>)
    ensures |s| >= 1 && AllDigits(s)
    ensures DecimalValue(s) == n
    decreases n
  {
    if n < 10 then [Zero + n]
    else
      var front := Decimal(n / 10);
      var s := front + [Zero + n % 10];
      assert s[..|s| - 1] == front;
      s
  }

  /** The first digit weighs `10^(|s| - 1)`. */
  lemma {:induction false} DecimalValueFront(s: seq<Byte>)
    requires |s| >= 1 && AllDigits(s)
    ensures DecimalValue(s) == (s[0] - Zero) * Pow10(|s| - 1) + DecimalValue(s[1..])
    decreases |s|
  {
    var n := |s|;
    if n == 1 {
      assert s[..0] == [] && s[1..] == [];
    } else {
      var init := s[..n - 1];
      DecimalValueFront(init);
      assert init[1..] == s[1..][..n - 2];
      assert s[1..][n - 2] == s[n - 1];
      calc {
        DecimalValue(s);
        DecimalValue(init) * 10 + (s[n - 1] - Zero);
        ((s[0] - Zero) * Pow10(n - 2) + DecimalValue(init[1..])) * 10 + (s[n - 1] - Zero);
        (s[0] - Zero) * (Pow10(n - 2) * 10) + (DecimalValue(s[1..][..n - 2]) * 10 + (s[n - 1] - Zero));
        (s[0] - Zero) * Pow10(n - 1) + DecimalValue(s[1..]);
      }
    }
  }

  // ---------------------------------------------------------------------------
  // `str::parse::<u16>`.

  /** The digit loop of `u16::from_str_radix(_, 10)`: from `acc`, each byte
      must be a digit and the running value must stay within `u16`; the
      first violation, left to right, is the error. */
  function AccumulateDigits(acc: U16, s: seq<Byte>): (r: Outcome<U16>)
    ensures r.Ok? || r == Err(InvalidDigit) || r == Err(PosOverflow)
    decreases |s|
  {
    if s == [] then Ok(acc)
    else if !IsDigit(s[0]) then Err(InvalidDigit)
    else if acc * 10 + (s[0] - Zero) > U16Max then Err(PosOverflow)
    else AccumulateDigits(acc * 10 + (s[0] - Zero), s[1..])
  }

  /** On digits only, the loop yields the number they denote after `acc`, or
      overflow exactly when that number exceeds `u16`. */
  lemma {:induction false} AccumulateDigitsValue(acc: U16, s: seq<Byte>)
    requires AllDigits(s)
    ensures var v := acc * Pow10(|s|) + DecimalValue(s);
      AccumulateDigits(acc, s) == if v <= U16Max then Ok(v) else Err(PosOverflow)
    decreases |s|
  {
    if s != [] {
      var n := |s|;
      var d := s[0] - Zero;
      var p := Pow10(n - 1);
      DecimalValueFront(s);
      assert Pow10(n) == 10 * p;
      Regroup(acc, d, p);
      if acc * 10 + d <= U16Max {
        AccumulateDigitsValue(acc * 10 + d, s[1..]);
      }
    }
  }

  /** `a * (10 * p) + d * p == (10 * a + d) * p`, and it is at least `10 * a + d`. */
  lemma Regroup(a: nat, d: nat, p: nat)
    requires p >= 1
    ensures a * (10 * p) + d * p == (a * 10 + d) * p >= a * 10 + d
  {
    assert (a * 10 + d) * p == (a * 10 + d) * (p - 1) + (a * 10 + d);
  }

  /** The digits `from_str_radix` reads: a leading '+' is dropped when
      something follows it; a '-' stays, and is not a digit. */
  function Unsigned(s: seq<Byte>): seq<Byte>
  {
    if |s| >= 2 && s[0] == Plus then s[1..] else s
  }

  /** A text `str::parse::<u16>` accepts. */
  predicate IsU16Text(s: seq<Byte>)
  {
    var u := Unsigned(s);
    u != [] && AllDigits(u) && DecimalValue(u) <= U16Max
  }

  /** `str::parse::<u16>`: the empty text is `Empty`; an optional '+' and
      then decimal digits whose value fits in 16 bits is that value;
      anything else is `InvalidDigit` or `PosOverflow`, the latter for every
      all-digit text above 65535. */
  function ParseU16(s: seq<Byte>): (r: Outcome<U16>)
    ensures !r.Panic?
    ensures r == Err(Empty) <==> s == []
    ensures r.Ok? <==> IsU16Text(s)
    ensures r.Ok? ==> r.value == DecimalValue(Unsigned(s))
    ensures r == Err(InvalidDigit) ==> !AllDigits(Unsigned(s))
    ensures Unsigned(s) != [] && AllDigits(Unsigned(s)) && DecimalValue(Unsigned(s)) > U16Max
            ==> r == Err(PosOverflow)
  {
    if s == [] then Err(Empty)
    else if |s| == 1 && (s[0] == Plus || s[0] == Minus) then Err(InvalidDigit)
    else
      var digits := if s[0] == Plus then s[1..] else s;
      assert digits == Unsigned(s);
      if AllDigits(digits) then
        AccumulateDigitsValue(0, digits);
        AccumulateDigits(0, digits)
      else
        NotAllDigitsFails(0, digits);
        AccumulateDigits(0, digits)
  }

  /** A byte that is not a digit makes the loop fail. */
  lemma {:induction false} NotAllDigitsFails(acc: U16, s: seq<Byte>)
    requires !AllDigits(s)
    ensures AccumulateDigits(acc, s).Err?
    decreases |s|
  {
    if IsDigit(s[0]) && acc * 10 + (s[0] - Zero) <= U16Max {
      assert !AllDigits(s[1..]) by {
        var i :| 0 <= i < |s| && !IsDigit(s[i]);
        assert s[1..][i - 1] == s[i];
      }
      NotAllDigitsFails(acc * 10 + (s[0] - Zero), s[1..]);
    }
  }

  // ---------------------------------------------------------------------------
  // `px_to_u16` and `background_to_pos`.

  /** `px_to_u16`: drops the last two bytes, whatever they are, and parses
      the rest. Fewer than two bytes, or a cut inside a character, panics. */
  function PxToU16(px: seq<Byte>): (r: Outcome<U16>)
    ensures r == Panic <==> |px| < 2 || !IsCharBoundary(px, |px| - 2)
    ensures r == Err(Empty) <==> |px| == 2
    ensures r.Ok? <==> |px| >= 2 && IsCharBoundary(px, |px| - 2) && IsU16Text(px[..|px| - 2])
    ensures r.Ok? ==> r.value == DecimalValue(Unsigned(px[..|px| - 2]))
  {
    if |px| < 2 || !IsCharBoundary(px, |px| - 2) then Panic
    else ParseU16(px[..|px| - 2])
  }

  /** A number's digits followed by any two-byte unit read back as that
      number; for instance "12px" is 12. */
  lemma PxToU16RoundTrip(n: U16, unit: seq<Byte>)
    requires |unit| == 2 && !IsContinuation(unit[0])
    ensures PxToU16(Decimal(n) + unit) == Ok(n)
  {
    var px := Decimal(n) + unit;
    assert px[..|px| - 2] == Decimal(n);
    assert px[|px| - 2] == unit[0];
  }

  /** `str::split(sep)`: the pieces between separators, one more than there
      are separators; none of them holds the separator. */
  function Split(s: seq<Byte>, sep: Byte): (r: seq<seq<Byte>>)
    ensures |r| >= 1
    ensures forall i | 0 <= i < |r| :: sep !in r[i]
    ensures Join(r, sep) == s
    decreases |s|
  {
    if s == [] then [[]]
    else
      var rest := Split(s[1..], sep);
      if s[0] == sep then
        assert ([[]] + rest)[1..] == rest;
        [[]] + rest
      else
        var r := [[s[0]] + rest[0]] + rest[1..];
        assert r[1..] == rest[1..];
        assert s == [s[0]] + s[1..];
        r
  }

  /** The pieces glued back together with the separator between them. */
  function Join(pieces: seq<seq<Byte>>, sep: Byte): seq<Byte>
    requires |pieces| >= 1
  {
    if |pieces| == 1 then pieces[0] else pieces[0] + [sep] + Join(pieces[1..], sep)
  }

  lemma {:induction false} SplitNoSeparator(a: seq<Byte>, sep: Byte)
    requires sep !in a
    ensures Split(a, sep) == [a]
    decreases |a|
  {
    if a != [] {
      assert sep !in a[1..];
      SplitNoSeparator(a[1..], sep);
      assert [a[0]] + a[1..] == a;
    }
  }

  lemma {:induction false} SplitAfterFirst(a: seq<Byte>, sep: Byte, b: seq<Byte>)
    requires sep !in a
    ensures Split(a + [sep] + b, sep) == [a] + Split(b, sep)
    decreases |a|
  {
    var s := a + [sep] + b;
    if a == [] {
      assert s[1..] == b;
    } else {
      assert s[1..] == a[1..] + [sep] + b;
      assert sep !in a[1..];
      SplitAfterFirst(a[1..], sep, b);
      assert [a[0]] + a[1..] == a;
    }
  }

  /** Splitting undoes joining pieces that hold no separator. */
  lemma {:induction false} SplitJoin(pieces: seq<seq<Byte>>, sep: Byte)
    requires |pieces| >= 1
    requires forall i | 0 <= i < |pieces| :: sep !in pieces[i]
    ensures Split(Join(pieces, sep), sep) == pieces
    decreases |pieces|
  {
    if |pieces| == 1 {
      SplitNoSeparator(pieces[0], sep);
    } else {
      SplitJoin(pieces[1..], sep);
      SplitAfterFirst(pieces[0], sep, Join(pieces[1..], sep));
      assert [pieces[0]] + pieces[1..] == pieces;
    }
  }

  /** One coordinate of `background_to_pos`: the `k`-th space-separated
      field without its first byte, read by `px_to_u16`. A missing field, or
      a first byte that is not a whole character, panics. */
  function Coordinate(fields: seq<seq<Byte>>, k: nat): Outcome<U16>
  {
    if k >= |fields| || !IsCharBoundary(fields[k], 1) then Panic
    else PxToU16(fields[k][1..])
  }

  /** `background_to_pos`: the second and third space-separated fields,
      read left to right; the first failure is the result. */
  function BackgroundToPos(background: seq<Byte>): (r: Outcome<(U16, U16)>)
    ensures var fields := Split(background, Space);
      r.Ok? <==> Coordinate(fields, 1).Ok? && Coordinate(fields, 2).Ok?
    ensures var fields := Split(background, Space);
      r.Ok? ==> r.value == (Coordinate(fields, 1).value, Coordinate(fields, 2).value)
    ensures var fields := Split(background, Space);
      r == Panic <==> Coordinate(fields, 1) == Panic || (Coordinate(fields, 1).Ok? && Coordinate(fields, 2) == Panic)
    ensures var fields := Split(background, Space);
      r.Err? ==> r.error == (if Coordinate(fields, 1).Err? then Coordinate(fields, 1) else Coordinate(fields, 2)).error
    ensures |Split(background, Space)| < 2 ==> r == Panic
    ensures r.Ok? ==> |Split(background, Space)| >= 3
  {
    var fields := Split(background, Space);
    match Coordinate(fields, 1)
    case Panic => Panic
    case Err(e) => Err(e)
    case Ok(x) =>
      match Coordinate(fields, 2)
      case Panic => Panic
      case Err(e) => Err(e)
      case Ok(y) => Ok((x, y))
  }

  /** A CSS background of the usual shape, an image reference and two signed
      pixel offsets (`url(a.png) -10px -20px`), possibly followed by more
      fields, reads back as the two offsets without their sign. */
  lemma BackgroundToPosRoundTrip(image: seq<Byte>, sign: Byte, x: U16, y: U16,
                                 more: seq<seq<Byte>>)
    requires Space !in image && sign != Space
    requires forall i | 0 <= i < |more| :: Space !in more[i]
    ensures BackgroundToPos(Join([image, [sign] + Decimal(x) + Px, [sign] + Decimal(y) + Px] + more, Space))
         == Ok((x, y))
  {
    var fx := [sign] + Decimal(x) + Px;
    var fy := [sign] + Decimal(y) + Px;
    var fields := [image, fx, fy] + more;
    SignedFieldHasNoSpace(sign, x);
    SignedFieldHasNoSpace(sign, y);
    SplitJoin(fields, Space);
    SignedCoordinate(fields, 1, sign, x);
    SignedCoordinate(fields, 2, sign, y);
  }

  lemma SignedFieldHasNoSpace(sign: Byte, n: U16)
    requires sign != Space
    ensures Space !in [sign] + Decimal(n) + Px
  {
    var d := Decimal(n);
    assert forall i | 0 <= i < |d| :: IsDigit(d[i]);
  }

  /** A field made of one sign byte, a number's digits and "px" is read as
      that number. */
  lemma SignedCoordinate(fields: seq<seq<Byte>>, k: nat, sign: Byte, n: U16)
    requires k < |fields| && fields[k] == [sign] + Decimal(n) + Px
    ensures Coordinate(fields, k) == Ok(n)
  {
    var f := fields[k];
    assert f[1..] == Decimal(n) + Px;
    assert IsDigit(Decimal(n)[0]) && f[1] == Decimal(n)[0];
    PxToU16RoundTrip(n, Px);
  }

  /** Only a signed offset reads as intended: the first byte of each field is
      dropped whatever it is, so an unsigned "0px 0px" (the origin) leaves
      "px" to parse, which is an `Empty` error. */
  lemma UnsignedOriginIsAnError(image: seq<Byte>)
    requires Space !in image
    ensures BackgroundToPos(Join([image, [Zero] + Px, [Zero] + Px], Space)) == Err(Empty)
  {
    var fields := [image, [Zero] + Px, [Zero] + Px];
    SplitJoin(fields, Space);
    assert fields[1][1..] == Px;
  }

  // ---------------------------------------------------------------------------
  // Sprites and the sheet.

  /** One value of the input map: CSS lengths and a CSS background. */
  datatype CssSprite = CssSprite(width: seq<Byte>, height: seq<Byte>, background: seq<Byte>)

  datatype Sprite = Sprite(width: U16, height: U16, x: U16, y: U16)

  datatype SpriteSheet = SpriteSheet(textureWidth: U16, textureHeight: U16, sprites: seq<Sprite>)

  /** The mapping of one entry: its position from its background, its size
      from its width and height; any failure is unwrapped into a panic. */
  function ToSprite(c: CssSprite): (r: Outcome<Sprite>)
    ensures !r.Err?
    ensures r.Ok? <==> BackgroundToPos(c.background).Ok? && PxToU16(c.width).Ok? && PxToU16(c.height).Ok?
    ensures r.Ok? ==> r.value.width == PxToU16(c.width).value && r.value.height == PxToU16(c.height).value
    ensures r.Ok? ==> (r.value.x, r.value.y) == BackgroundToPos(c.background).value
  {
    var pos := BackgroundToPos(c.background);
    if !pos.Ok? then Panic
    else
      var width := PxToU16(c.width);
      var height := PxToU16(c.height);
      if !width.Ok? || !height.Ok? then Panic
      else Ok(Sprite(width.value, height.value, pos.value.0, pos.value.1))
  }

  /** The mapping of every entry, in the order the map yields them. */
  function ToSprites(entries: seq<CssSprite>): (r: Outcome<seq<Sprite>>)
    ensures !r.Err?
    ensures r.Ok? <==> forall i | 0 <= i < |entries| :: ToSprite(entries[i]).Ok?
    ensures r.Ok? ==> |r.value| == |entries|
    ensures r.Ok? ==> forall i | 0 <= i < |entries| :: ToSprite(entries[i]) == Ok(r.value[i])
    decreases |entries|
  {
    if entries == [] then Ok([])
    else
      var first := ToSprite(entries[0]);
      var rest := ToSprites(entries[1..]);
      ToSpritesStep(entries);
      if first.Ok? && rest.Ok? then Ok([first.value] + rest.value) else Panic
  }

  lemma ToSpritesStep(entries: seq<CssSprite>)
    requires entries != []
    ensures forall i | 1 <= i < |entries| :: entries[i] == entries[1..][i - 1]
    ensures (forall i | 0 <= i < |entries| :: ToSprite(entries[i]).Ok?) <==>
      ToSprite(entries[0]).Ok? && forall i | 0 <= i < |entries[1..]| :: ToSprite(entries[1..][i]).Ok?
  {
    if ToSprite(entries[0]).Ok? && forall i | 0 <= i < |entries[1..]| :: ToSprite(entries[1..][i]).Ok? {
      forall i | 0 <= i < |entries| ensures ToSprite(entries[i]).Ok? {
        if i > 0 { assert entries[i] == entries[1..][i - 1]; }
      }
    }
  }

  datatype Axis = Horizontal | Vertical

  /** Where a sprite ends along an axis: `x + width` or `y + height`. */
  function Edge(s: Sprite, a: Axis): nat
  {
    if a == Horizontal then s.x + s.width else s.y + s.height
  }

  /** `.map(edge).max().unwrap_or(0)`: the largest edge, 0 for no sprites. */
  function MaxEdge(sprites: seq<Sprite>, a: Axis): (m: nat)
    ensures forall s | s in sprites :: Edge(s, a) <= m
    ensures sprites == [] ==> m == 0
    ensures sprites != [] ==> exists s | s in sprites :: Edge(s, a) == m
    decreases |sprites|
  {
    if sprites == [] then 0
    else
      var last := sprites[|sprites| - 1];
      var init := sprites[..|sprites| - 1];
      assert sprites == init + [last];
      var m := MaxEdge(init, a);
      if Edge(last, a) >= m then Edge(last, a) else m
  }

  /** The sheet of some sprites: every edge is computed in `u16`, so one
      beyond 65535 overflows and panics; otherwise the texture is exactly as
      wide and as high as the sprites reach. */
  function PackSheet(sprites: seq<Sprite>): (r: Outcome<SpriteSheet>)
    ensures !r.Err?
    ensures r.Ok? <==> forall s | s in sprites :: Edge(s, Horizontal) <= U16Max && Edge(s, Vertical) <= U16Max
    ensures r.Ok? ==> r.value.sprites == sprites
    ensures r.Ok? ==> forall s | s in sprites ::
      s.x + s.width <= r.value.textureWidth && s.y + s.height <= r.value.textureHeight
    ensures r.Ok? && sprites == [] ==> r.value.textureWidth == 0 && r.value.textureHeight == 0
    ensures r.Ok? && sprites != [] ==>
      (exists s | s in sprites :: s.x + s.width == r.value.textureWidth)
      && (exists s | s in sprites :: s.y + s.height == r.value.textureHeight)
  {
    if exists s | s in sprites :: Edge(s, Horizontal) > U16Max || Edge(s, Vertical) > U16Max then Panic
    else
      var w := MaxEdge(sprites, Horizontal);
      var h := MaxEdge(sprites, Vertical);
      assert sprites != [] ==> w <= U16Max && h <= U16Max;
      Ok(SpriteSheet(w, h, sprites))
  }

  /** Every sprite of a packed sheet, by position, fits in the texture. */
  lemma PackSheetFitsEach(sprites: seq<Sprite>)
    ensures var r := PackSheet(sprites);
      r.Ok? ==> forall i | 0 <= i < |sprites| ::
        sprites[i].x + sprites[i].width <= r.value.textureWidth
        && sprites[i].y + sprites[i].height <= r.value.textureHeight
  {
    var r := PackSheet(sprites);
    if r.Ok? {
      forall i | 0 <= i < |sprites|
        ensures sprites[i].x + sprites[i].width <= r.value.textureWidth
        ensures sprites[i].y + sprites[i].height <= r.value.textureHeight
      {
        assert sprites[i] in sprites;
      }
    }
  }

  /** The texture does not depend on the order the sprites come in, which is
      the unspecified iteration order of the input map. */
  lemma PackSheetOrderIndependent(a: seq<Sprite>, b: seq<Sprite>)
    requires multiset(a) == multiset(b)
    ensures PackSheet(a).Ok? <==> PackSheet(b).Ok?
    ensures PackSheet(a).Ok? ==>
      PackSheet(a).value.textureWidth == PackSheet(b).value.textureWidth
      && PackSheet(a).value.textureHeight == PackSheet(b).value.textureHeight
  {
    assert forall s :: s in a <==> s in b by {
      forall s ensures s in a <==> s in b {
        assert s in a <==> s in multiset(a);
        assert s in b <==> s in multiset(b);
      }
    }
  }

  /** One input line, once decoded: its entries become sprites and the
      sprites a sheet; the sheet keeps one sprite per entry, in order. */
  function ConvertLine(entries: seq<CssSprite>): (r: Outcome<SpriteSheet>)
    ensures !r.Err?
    ensures r.Ok? ==> |r.value.sprites| == |entries|
    ensures r.Ok? ==> forall i | 0 <= i < |entries| :: ToSprite(entries[i]) == Ok(r.value.sprites[i])
    ensures r.Ok? ==> forall i | 0 <= i < |entries| ::
      r.value.sprites[i].x + r.value.sprites[i].width <= r.value.textureWidth
      && r.value.sprites[i].y + r.value.sprites[i].height <= r.value.textureHeight
    ensures (exists i | 0 <= i < |entries| :: ToSprite(entries[i]).Panic?) ==> r == Panic
  {
    var sprites := ToSprites(entries);
    if sprites.Ok? then
      PackSheetFitsEach(sprites.value);
      PackSheet(sprites.value)
    else Panic
  }

  /** When every entry maps to a sprite, the line panics exactly when some
      sprite's right or bottom edge is beyond 65535. */
  lemma ConvertLineOverflow(entries: seq<CssSprite>, sprites: seq<Sprite>)
    requires ToSprites(entries) == Ok(sprites)
    ensures ConvertLine(entries).Ok? <==> forall i | 0 <= i < |sprites| ::
      Edge(sprites[i], Horizontal) <= U16Max && Edge(sprites[i], Vertical) <= U16Max
  {
    assert ConvertLine(entries) == PackSheet(sprites);
    PackSheetOkByIndex(sprites);
  }

  lemma PackSheetOkByIndex(sprites: seq<Sprite>)
    ensures PackSheet(sprites).Ok? <==> forall i | 0 <= i < |sprites| ::
      Edge(sprites[i], Horizontal) <= U16Max && Edge(sprites[i], Vertical) <= U16Max
  {
    forall s | s in sprites
      ensures exists i | 0 <= i < |sprites| :: s == sprites[i]
    {
      var i :| 0 <= i < |sprites| && sprites[i] == s;
    }
    assert forall i | 0 <= i < |sprites| :: sprites[i] in sprites;
  }

  /** How a run of the tool ends: after the last line, on a line that is not
      a JSON map of sprites (the tool returns that error), or on a panic. */
  datatype RunEnd = Finished | DecodeFailed(line: nat) | Panicked(line: nat)

  /** The line loop of `main`: each line, already decoded (`None` when it is
      not a JSON map of CSS sprites), is converted and its sheet printed,
      until the input ends or a line fails. */
  method Run(lines: seq<Option<seq<CssSprite>>>) returns (printed: seq<SpriteSheet>, end: RunEnd)
    ensures end.Finished? ==> |printed| == |lines|
    ensures end.DecodeFailed? ==> end.line == |printed| < |lines| && lines[end.line].None?
    ensures end.Panicked? ==>
      end.line == |printed| < |lines| && lines[end.line].Some?
      && ConvertLine(lines[end.line].value) == Panic
    ensures |printed| <= |lines|
    ensures forall i | 0 <= i < |printed| ::
      lines[i].Some? && ConvertLine(lines[i].value) == Ok(printed[i])
  {
    printed := [];
    var i := 0;
    while i < |lines|
      invariant i == |printed| <= |lines|
      invariant forall k | 0 <= k < i :: lines[k].Some? && ConvertLine(lines[k].value) == Ok(printed[k])
    {
      match lines[i]
      case None =>
        end := DecodeFailed(i);
        return;
      case Some(entries) =>
        var sheet := ConvertLine(entries);
        if sheet.Panic? {
          end := Panicked(i);
          return;
        }
        printed := printed + [sheet.value];
      i := i + 1;
    }
    end := Finished;
  }
}
