/**
 * The text of a world seed, "WIDTH HEIGHT FOOD% OBSTACLES% [SPECIES QUANTITY]*",
 * as the 4-argument fromText reads it: String.split(" "), Integer.parseInt,
 * the four header fields, Math.round of a percentage of the population
 * limit, and the species/quantity pairs read from token 4 on.
 */
module Seeds {
  import opened Wrappers
  import opened Numerics

  /** Why fromText throws instead of returning a world. */
  datatype SeedError =
    | MissingToken(index: nat)       // ArrayIndexOutOfBoundsException on splitString[index]
    | NotANumber(index: nat)         // NumberFormatException from Integer.parseInt(splitString[index])
    | NegativeSize                   // NegativeArraySizeException from generateNoise's new double[width][height]
    | NoRoom                         // IllegalArgumentException: nextInt(width - 1) or nextInt(height - 1) with a bound below 1
    | NoFoodNames                    // IllegalArgumentException: nextInt(food.size()) on an empty list
    | FoodNotLoaded(name: string)    // NullPointerException: Food.load returned null
    | BeingNotLoaded(name: string)   // NullPointerException: LivingBeing.load returned null

  /** The text between single spaces, empty pieces included: one more piece than there are spaces. */
  function Pieces(s: string): (r: seq<string>)
    ensures |r| >= 1
    ensures forall k :: 0 <= k < |r| ==> ' ' !in r[k]
    decreases |s|
  {
    if |s| == 0 then [""]
    else
      var rest := Pieces(s[1..]);
      if s[0] == ' ' then [""] + rest
      else [[s[0]] + rest[0]] + rest[1..]
  }

  /** The pieces joined back with single spaces. */
  function Join(ps: seq<string>): string
    requires |ps| >= 1
    decreases |ps|
  {
    if |ps| == 1 then ps[0] else ps[0] + " " + Join(ps[1..])
  }

  /** Splitting at every space and joining again gives the text back. */
  lemma {:induction false} JoinPieces(s: string)
    ensures Join(Pieces(s)) == s
    decreases |s|
  {
    if |s| > 0 {
      var rest := Pieces(s[1..]);
      JoinPieces(s[1..]);
      if s[0] == ' ' {
        assert ([""] + rest)[1..] == rest;
      } else {
        JoinPrepend(s[0], rest);
      }
      assert s == [s[0]] + s[1..];
    }
  }

  /** A character stuck to the first piece is stuck to the joined text. */
  lemma {:induction false} JoinPrepend(c: char, ps: seq<string>)
    requires |ps| >= 1
    ensures Join([[c] + ps[0]] + ps[1..]) == [c] + Join(ps)
  {
    if |ps| == 1 {
      assert [[c] + ps[0]] + ps[1..] == [[c] + ps[0]];
    } else {
      var j := Join(ps[1..]);
      JoinCons([c] + ps[0], ps[1..]);
      assert Join(ps) == ps[0] + " " + j;
      assert ([c] + ps[0]) + " " + j == [c] + (ps[0] + " " + j);
    }
  }

  /** Joining a piece in front of at least one more. */
  lemma {:induction false} JoinCons(p: string, rest: seq<string>)
    requires |rest| >= 1
    ensures Join([p] + rest) == p + " " + Join(rest)
  {
    assert ([p] + rest)[1..] == rest;
  }

  /** Text without a space followed by more text: the text sticks to the first piece. */
  lemma {:induction false} PiecesOfPrefix(a: string, t: string)
    requires ' ' !in a
    ensures Pieces(a + t) == [a + Pieces(t)[0]] + Pieces(t)[1..]
    decreases |a|
  {
    if |a| > 0 {
      var p := Pieces(t);
      assert (a + t)[1..] == a[1..] + t;
      PiecesOfPrefix(a[1..], t);
      var rest := Pieces(a[1..] + t);
      assert rest[0] == a[1..] + p[0] && rest[1..] == p[1..];
      assert [a[0]] + (a[1..] + p[0]) == a + p[0];
    } else {
      var p := Pieces(t);
      assert a + t == t && a + p[0] == p[0];
      assert [p[0]] + p[1..] == p;
    }
  }

  /** Joining pieces that hold no space and splitting at every space gives the pieces back. */
  lemma {:induction false} PiecesJoin(ps: seq<string>)
    requires |ps| >= 1
    requires forall k :: 0 <= k < |ps| ==> ' ' !in ps[k]
    ensures Pieces(Join(ps)) == ps
    decreases |ps|
  {
    if |ps| == 1 {
      PiecesOfPrefix(ps[0], "");
      assert ps[0] + "" == ps[0];
    } else {
      var rest := Join(ps[1..]);
      PiecesJoin(ps[1..]);
      assert Pieces(" " + rest) == [""] + Pieces(rest) by {
        assert (" " + rest)[1..] == rest;
      }
      assert ps[0] + " " + rest == ps[0] + (" " + rest);
      PiecesOfPrefix(ps[0], " " + rest);
      assert ps[0] + "" == ps[0];
      assert ps == [ps[0]] + ps[1..];
    }
  }

  /**
   * The pieces up to the last non-empty one: a prefix of ps, ending in a
   * non-empty piece, with only empty pieces dropped.
   */
  function DropTrailingEmpty(ps: seq<string>): (r: seq<string>)
    ensures r <= ps
    ensures |r| > 0 ==> r[|r| - 1] != ""
    ensures forall k :: |r| <= k < |ps| ==> ps[k] == ""
    decreases |ps|
  {
    if |ps| > 0 && ps[|ps| - 1] == "" then DropTrailingEmpty(ps[..|ps| - 1]) else ps
  }

  /**
   * String.split(" "): text without a space is its own single piece (even
   * the empty text); otherwise the pieces between spaces, without the
   * trailing empty ones.
   */
  function Split(s: string): (r: seq<string>)
    ensures ' ' !in s ==> r == [s]
    ensures ' ' in s ==> r <= Pieces(s) && (|r| > 0 ==> r[|r| - 1] != "")
    ensures ' ' in s ==> forall k :: |r| <= k < |Pieces(s)| ==> Pieces(s)[k] == ""
    ensures forall k :: 0 <= k < |r| ==> ' ' !in r[k]
  {
    if ' ' !in s then [s] else DropTrailingEmpty(Pieces(s))
  }

  /** Seed tokens as the generation window writes them: not empty, no space inside. */
  predicate Tokens(ts: seq<string>) {
    forall k :: 0 <= k < |ts| ==> ts[k] != "" && ' ' !in ts[k]
  }

  /** Tokens that are not empty and hold no space, joined with spaces, split back into themselves. */
  lemma {:induction false} SplitJoin(ts: seq<string>)
    requires |ts| >= 1
    requires Tokens(ts)
    ensures Split(Join(ts)) == ts
  {
    PiecesJoin(ts);
    if |ts| > 1 {
      JoinHasSpace(ts);
    } else {
      assert Join(ts) == ts[0];
    }
  }

  /** Two or more pieces are joined by at least one space. */
  lemma {:induction false} JoinHasSpace(ts: seq<string>)
    requires |ts| > 1
    ensures ' ' in Join(ts)
  {
    assert Join(ts) == ts[0] + " " + Join(ts[1..]);
    assert Join(ts)[|ts[0]|] == ' ';
  }

  predicate IsDigit(c: char) {
    '0' <= c <= '9'
  }

  predicate AllDigits(ds: string) {
    forall k :: 0 <= k < |ds| ==> IsDigit(ds[k])
  }

  /** The value of a string of decimal digits, most significant first. */
  function DigitsValue(ds: string): nat
    requires AllDigits(ds)
    decreases |ds|
  {
    if |ds| == 0 then 0
    else DigitsValue(ds[..|ds| - 1]) * 10 + (ds[|ds| - 1] as int - '0' as int)
  }

  /**
   * Integer.parseInt(s) in radix 10: an optional '-' or '+', then one or
   * more digits, with a value in the 32-bit range; None stands for the
   * NumberFormatException. Only the ASCII digits are read.
   */
  function ParseInt(s: string): (r: Option<int>)
    ensures r.Some? ==> IsInt32(r.value) && |s| > 0 && ' ' !in s
    ensures r.Some? && s[0] != '-' ==> 0 <= r.value
    ensures r.Some? && s[0] == '-' ==> r.value <= 0
  {
    if |s| == 0 then None
    else
      var negative := s[0] == '-';
      var digits := if s[0] == '-' || s[0] == '+' then s[1..] else s;
      if |digits| == 0 || !AllDigits(digits) then None
      else
        var v := if negative then -(DigitsValue(digits) as int) else DigitsValue(digits) as int;
        if IsInt32(v) then Some(v) else None
  }

  /** Integer.toString of a non-negative number: its decimal digits, most significant first, no leading zero. */
  function Digits(n: nat): (ds: string)
    ensures |ds| >= 1 && AllDigits(ds)
    ensures DigitsValue(ds) == n
    ensures |ds| > 1 ==> ds[0] != '0'
    decreases n
  {
    if n < 10 then [('0' as int + n) as char]
    else
      var ds := Digits(n / 10) + [('0' as int + n % 10) as char];
      assert ds[..|ds| - 1] == Digits(n / 10);
      ds
  }

  /** Integer.toString: a '-' before the digits of a negative number. */
  function Show(n: int): (s: string)
    ensures |s| >= 1 && ' ' !in s
  {
    if n < 0 then "-" + Digits(-n) else Digits(n)
  }

  /** A number written out is a seed token. */
  lemma {:induction false} ShowIsToken(n: int)
    ensures Show(n) != "" && ' ' !in Show(n)
  {
  }

  /** Every 32-bit int written out is read back by Integer.parseInt. */
  lemma {:induction false} ParseShow(n: int)
    requires IsInt32(n)
    ensures ParseInt(Show(n)) == Some(n)
  {
    if n < 0 {
      assert Show(n)[1..] == Digits(-n);
    }
  }

  datatype Header = Header(width: int, height: int, foodPercent: int, obstaclesPercent: int)

  /** splitString[i] read by Integer.parseInt. */
  function IntToken(tokens: seq<string>, i: nat): Result<int, SeedError> {
    if i >= |tokens| then Failure(MissingToken(i))
    else match ParseInt(tokens[i])
      case None => Failure(NotANumber(i))
      case Some(v) => Success(v)
  }

  /**
   * Tokens 0 to 3 read in order as width, height, food and obstacle
   * percentages; the first one missing or malformed is the exception.
   */
  function ReadHeader(tokens: seq<string>): (r: Result<Header, SeedError>)
    ensures r.Success? <==> |tokens| >= 4 && forall k :: 0 <= k < 4 ==> ParseInt(tokens[k]).Some?
    ensures r.Success? ==> r.value == Header(ParseInt(tokens[0]).value, ParseInt(tokens[1]).value,
                                             ParseInt(tokens[2]).value, ParseInt(tokens[3]).value)
    ensures r.Failure? ==> exists i :: 0 <= i < 4 && r.error == (if i < |tokens| then NotANumber(i) else MissingToken(i)) &&
                                       forall j :: 0 <= j < i ==> j < |tokens| && ParseInt(tokens[j]).Some?
  {
    match IntToken(tokens, 0)
    case Failure(e) => Failure(e)
    case Success(w) =>
      match IntToken(tokens, 1)
      case Failure(e) => Failure(e)
      case Success(h) =>
        match IntToken(tokens, 2)
        case Failure(e) => Failure(e)
        case Success(f) =>
          match IntToken(tokens, 3)
          case Failure(e) => Failure(e)
          case Success(o) => Success(Header(w, h, f, o))
  }

  /**
   * A seed written the way the generation window writes one (the four
   * numbers, then further tokens, joined with spaces) reads back as those
   * four numbers.
   */
  lemma {:induction false} ReadHeaderOfSeed(w: int, h: int, f: int, o: int, rest: seq<string>)
    requires IsInt32(w) && IsInt32(h) && IsInt32(f) && IsInt32(o)
    requires Tokens(rest)
    ensures ReadHeader(Split(Join([Show(w), Show(h), Show(f), Show(o)] + rest))) == Success(Header(w, h, f, o))
  {
    var head := [Show(w), Show(h), Show(f), Show(o)];
    ShowIsToken(w);
    ShowIsToken(h);
    ShowIsToken(f);
    ShowIsToken(o);
    assert Tokens(head);
    var ts := head + rest;
    assert Tokens(ts);
    SplitJoin(ts);
    ParseShow(w);
    ParseShow(h);
    ParseShow(f);
    ParseShow(o);
    HeaderOfTokens(Show(w), Show(h), Show(f), Show(o), rest, w, h, f, o);
  }

  /** Four tokens that parse as w, h, f and o, then anything, read as the header (w, h, f, o). */
  lemma {:induction false} HeaderOfTokens(a: string, b: string, c: string, d: string, rest: seq<string>, w: int, h: int, f: int, o: int)
    requires ParseInt(a) == Some(w) && ParseInt(b) == Some(h) && ParseInt(c) == Some(f) && ParseInt(d) == Some(o)
    ensures ReadHeader([a, b, c, d] + rest) == Success(Header(w, h, f, o))
  {
    var ts := [a, b, c, d] + rest;
    assert ts[0] == a && ts[1] == b && ts[2] == c && ts[3] == d;
  }

  /** Math.round(area * ((float) percent / 100)), on reals. */
  function Quantity(area: int, percent: int): (q: int)
    ensures IsInt32(q)
  {
    JavaRound(area as real * (percent as real / 100.0))
  }

  /**
   * A percentage from 0 to 100 of a non-negative 32-bit limit is a whole
   * number from 0 to the limit, within a half of the exact share; 0% is
   * none and 100% is all.
   */
  lemma {:induction false} QuantityBounds(area: int, percent: int)
    requires 0 <= area <= MaxInt && 0 <= percent <= 100
    ensures 0 <= Quantity(area, percent) <= area
    ensures var x := area as real * (percent as real / 100.0);
      Quantity(area, percent) as real - 0.5 <= x < Quantity(area, percent) as real + 0.5
    ensures percent == 0 ==> Quantity(area, percent) == 0
    ensures percent == 100 ==> Quantity(area, percent) == area
  {
    var share := percent as real / 100.0;
    var x := area as real * share;
    assert 0.0 <= share <= 1.0;
    assert area as real * share <= area as real * 1.0;
    assert 0.0 <= x <= area as real;
    if x == MaxInt as real {
      assert (x + 0.5).Floor == MaxInt;
    }
  }

  /**
   * fromText's loop `for (i = 4; i < splitString.length - 1; i += 2)`: the
   * pairs (tokens[i], tokens[i + 1]) from i on.
   */
  function PairsFrom(tokens: seq<string>, i: nat): seq<(string, string)>
    decreases |tokens| - i
  {
    if i + 1 < |tokens| then [(tokens[i], tokens[i + 1])] + PairsFrom(tokens, i + 2) else []
  }

  /** From i on, the loop reads every second token with the one after it, and no more pairs than fit. */
  lemma {:induction false} PairsFromShape(tokens: seq<string>, i: nat)
    ensures |PairsFrom(tokens, i)| == if i + 1 < |tokens| then (|tokens| - i) / 2 else 0
    ensures forall k :: 0 <= k < |PairsFrom(tokens, i)| ==>
      i + 2 * k + 1 < |tokens| && PairsFrom(tokens, i)[k] == (tokens[i + 2 * k], tokens[i + 2 * k + 1])
    decreases |tokens| - i
  {
    if i + 1 < |tokens| {
      PairsFromShape(tokens, i + 2);
      var ps := PairsFrom(tokens, i);
      forall k | 0 <= k < |ps|
        ensures i + 2 * k + 1 < |tokens| && ps[k] == (tokens[i + 2 * k], tokens[i + 2 * k + 1])
      {
        if k > 0 {
          assert ps[k] == PairsFrom(tokens, i + 2)[k - 1];
        }
      }
    }
  }

  /** A trailing token without a quantity after it is ignored. */
  lemma {:induction false} TrailingTokenIgnored(tokens: seq<string>, i: nat, extra: string)
    requires i <= |tokens| && (|tokens| - i) % 2 == 0
    ensures PairsFrom(tokens + [extra], i) == PairsFrom(tokens, i)
    decreases |tokens| - i
  {
    if i + 1 < |tokens| {
      TrailingTokenIgnored(tokens, i + 2, extra);
      assert (tokens + [extra])[i] == tokens[i] && (tokens + [extra])[i + 1] == tokens[i + 1];
    }
  }
}
