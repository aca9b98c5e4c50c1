/**
 * How the task classes turn a chunk of the external program's standard
 * output into a progress percentage. Every task tests the chunk against
 * `/[0-9]+\/[0-9]+/`, splits it on `/` and divides the first piece, times
 * 100, by another piece; the map creator takes the last piece, the other
 * tasks the second one. Pieces are converted as JavaScript's `Number()`
 * does, and the result is neither rounded nor clamped.
 */
module Progress {
  import opened Wrappers
  import opened Text

  /** `Number(piece)` restricted to what the model reads: a natural number or NaN. */
  datatype JsNumber = Num(n: nat) | NaN

  /** A JavaScript double as far as the percentage formula can produce one. */
  datatype Percentage = Finite(value: real) | Infinity | NotANumber

  /** A digit, a `/` and a digit start at index `i`. */
  predicate RatioAt(s: string, i: int) {
    0 <= i && i + 2 < |s| && IsDigit(s[i]) && s[i + 1] == '/' && IsDigit(s[i + 2])
  }

  /** Whether `/[0-9]+\/[0-9]+/` matches somewhere in `s`. */
  function HasRatio(s: string): (b: bool)
    ensures b <==> exists i :: RatioAt(s, i)
  {
    if |s| < 3 then
      assert forall i :: !RatioAt(s, i);
      false
    else if RatioAt(s, 0) then true
    else
      var b := HasRatio(s[1..]);
      assert forall i :: RatioAt(s[1..], i) ==> RatioAt(s, i + 1);
      assert forall i :: 0 < i ==> RatioAt(s, i) ==> RatioAt(s[1..], i - 1);
      b
  }

  /** `Number(piece)`: surrounding whitespace ignored, empty text is 0, digits are their value. */
  function ToNumber(piece: string): (r: JsNumber)
    ensures AllDigits(Trim(piece)) <==> r.Num?
  {
    var t := Trim(piece);
    if AllDigits(t) then Num(if t == [] then 0 else DecimalValue(t)) else NaN
  }

  /** `(a * 100) / b` in JavaScript arithmetic. */
  function Percent(a: JsNumber, b: JsNumber): (p: Percentage)
    ensures p.Finite? <==> a.Num? && b.Num? && b.n > 0
    ensures p.Infinity? <==> a.Num? && b.Num? && b.n == 0 && a.n > 0
    ensures p.Finite? ==> p.value * (b.n as real) == 100.0 * (a.n as real)
  {
    match (a, b)
    case (Num(x), Num(y)) =>
      if y == 0 then (if x == 0 then NotANumber else Infinity)
      else Finite((100 * x) as real / y as real)
    case _ => NotANumber
  }

  /** The map creator's update: first piece over the last piece; `None` when there is no ratio. */
  function FirstOverLast(chunk: string): (r: Option<Percentage>)
    ensures r.Some? <==> HasRatio(chunk)
  {
    if HasRatio(chunk) then
      var pieces := Split(chunk, '/');
      Some(Percent(ToNumber(pieces[0]), ToNumber(pieces[|pieces| - 1])))
    else None
  }

  /** The detection and cropping tasks' update: first piece over the second piece. */
  function FirstOverSecond(chunk: string): (r: Option<Percentage>)
    ensures r.Some? <==> HasRatio(chunk)
  {
    if HasRatio(chunk) then
      assert RatioAt(chunk, (var i :| RatioAt(chunk, i); i));
      var pieces := Split(chunk, '/');
      Some(Percent(ToNumber(pieces[0]), ToNumber(pieces[1])))
    else None
  }

  /** A chunk `<head>/<tail>` with no other `/` splits into exactly those two pieces. */
  lemma SplitAtSlash(head: string, tail: string)
    requires '/' !in head && '/' !in tail
    ensures Split(head + "/" + tail, '/') == [head, tail]
  {
    SplitJoin([head, tail], '/');
    assert Join([head, tail], '/') == head + "/" + tail;
  }

  lemma DigitsSpacesNoSlash(d: string, ws: string)
    requires AllDigits(d) && AllSpace(ws)
    ensures '/' !in d + ws
  {
    forall i | 0 <= i < |d + ws| ensures (d + ws)[i] != '/' {
      if i < |d| { assert IsDigit(d[i]); } else { assert IsSpace(ws[i - |d|]); }
    }
  }

  lemma NumberOfRendering(n: nat, ws: string)
    requires AllSpace(ws)
    ensures ToNumber(NatToString(n) + ws) == Num(n)
  {
    TrimDigitsThenSpaces(NatToString(n), ws);
    DecimalValueOfNatToString(n);
  }

  lemma DivAtMost(x: real, y: real, c: real)
    requires y > 0.0
    ensures x / y <= c <==> x <= c * y
  {
    var q := x / y;
    assert q * y == x;
    assert (c - q) * y == c * y - x;
  }

  lemma PercentAtMostHundred(a: nat, b: nat)
    requires b > 0
    ensures 0.0 <= (100 * a) as real / b as real
    ensures (100 * a) as real / b as real <= 100.0 <==> a <= b
  {
    DivAtMost((100 * a) as real, b as real, 100.0);
    DivAtMost(0.0 - (100 * a) as real, b as real, 0.0);
  }

  /** With exactly one `/`, both formulas divide the text before it by the text after it. */
  lemma UpdateOfTwoPieces(chunk: string, head: string, tail: string)
    requires HasRatio(chunk)
    requires Split(chunk, '/') == [head, tail]
    ensures FirstOverSecond(chunk) == Some(Percent(ToNumber(head), ToNumber(tail)))
    ensures FirstOverLast(chunk) == Some(Percent(ToNumber(head), ToNumber(tail)))
  {
  }

  /** A line `<a>/<b>`, trailing whitespace allowed, is read as the pair `a`, `b`. */
  lemma RatioLineNumbers(a: nat, b: nat, ws: string)
    requires AllSpace(ws)
    ensures FirstOverSecond(NatToString(a) + "/" + (NatToString(b) + ws)) == Some(Percent(Num(a), Num(b)))
    ensures FirstOverLast(NatToString(a) + "/" + (NatToString(b) + ws)) == Some(Percent(Num(a), Num(b)))
  {
    var da, tail := NatToString(a), NatToString(b) + ws;
    var chunk := da + "/" + tail;
    assert RatioAt(chunk, |da| - 1) by {
      assert chunk[|da| - 1] == da[|da| - 1];
      assert chunk[|da| + 1] == tail[0] == NatToString(b)[0];
    }
    assert HasRatio(chunk);
    assert '/' !in da by { DigitsSpacesNoSlash(da, ""); assert da + "" == da; }
    DigitsSpacesNoSlash(NatToString(b), ws);
    SplitAtSlash(da, tail);
    UpdateOfTwoPieces(chunk, da, tail);
    NumberOfRendering(a, "");
    assert da + "" == da;
    NumberOfRendering(b, ws);
  }

  /**
   * A line `<a>/<b>` (trailing whitespace allowed) with `b > 0` gives
   * `a * 100 / b` under both formulas; the value is at most 100 exactly when
   * `a <= b`, so an over-full ratio is reported above 100.
   */
  lemma RatioLine(a: nat, b: nat, ws: string)
    requires b > 0
    requires AllSpace(ws)
    ensures FirstOverSecond(NatToString(a) + "/" + (NatToString(b) + ws)) == Some(Finite((100 * a) as real / b as real))
    ensures FirstOverLast(NatToString(a) + "/" + (NatToString(b) + ws)) == Some(Finite((100 * a) as real / b as real))
    ensures 0.0 <= (100 * a) as real / b as real
    ensures (100 * a) as real / b as real <= 100.0 <==> a <= b
  {
    RatioLineNumbers(a, b, ws);
    assert Percent(Num(a), Num(b)) == Finite((100 * a) as real / b as real);
    PercentAtMostHundred(a, b);
  }

  /** A piece that starts with neither a digit nor whitespace, and does not end in whitespace, is NaN. */
  lemma NaNPiece(piece: string)
    requires piece != [] && !IsDigit(piece[0]) && !IsSpace(piece[0]) && !IsSpace(piece[|piece| - 1])
    ensures ToNumber(piece) == NaN
  {
    assert TrimStart(piece) == piece;
    assert TrimEnd(piece) == piece;
    assert Trim(piece)[0] == piece[0];
  }

  /** A caption, a space and a number: no `/`, and not a number as a whole. */
  lemma LabelledHead(caption: string, da: string)
    requires |caption| > 0 && !IsDigit(caption[0]) && !IsSpace(caption[0]) && '/' !in caption
    requires |da| > 0 && AllDigits(da)
    ensures var head := caption + " " + da;
      && '/' !in head && ToNumber(head) == NaN && IsDigit(head[|head| - 1])
  {
    var head := caption + " " + da;
    DigitsSpacesNoSlash(da, "");
    assert da + "" == da;
    assert head[0] == caption[0];
    assert head[|head| - 1] == da[|da| - 1];
    NaNPiece(head);
  }

  /**
   * When text that is neither a digit nor whitespace comes before the
   * numerator, the first piece is not a number and the update is NaN.
   */
  lemma LabelledRatio(caption: string, da: string, db: string)
    requires |caption| > 0 && !IsDigit(caption[0]) && !IsSpace(caption[0]) && '/' !in caption
    requires |da| > 0 && AllDigits(da) && |db| > 0 && AllDigits(db)
    ensures FirstOverSecond(caption + " " + da + "/" + db) == Some(NotANumber)
  {
    var head := caption + " " + da;
    var upToSlash := head + "/";
    var chunk := upToSlash + db;
    LabelledHead(caption, da);
    assert RatioAt(chunk, |head| - 1) by {
      assert upToSlash[|head| - 1] == head[|head| - 1] && upToSlash[|head|] == '/';
      assert chunk[|upToSlash|] == db[0];
    }
    DigitsSpacesNoSlash(db, "");
    assert db + "" == db;
    SplitAtSlash(head, db);
    UpdateOfTwoPieces(chunk, head, db);
  }

  /** With a single `/` in the chunk both formulas agree. */
  lemma SingleSlashFormulasAgree(chunk: string, head: string, tail: string)
    requires chunk == head + "/" + tail
    requires '/' !in head && '/' !in tail
    ensures FirstOverLast(chunk) == FirstOverSecond(chunk)
  {
    SplitJoin([head, tail], '/');
  }
}
