/** 2023 day 2, "Cube Conundrum": each game shows several sets of coloured cubes. A game is
    possible when, for every colour, the largest count it shows is within the given
    threshold; the id checksum adds the ids of the possible games and the power checksum
    adds, for every game, the product of its three largest counts. */
module CubeGame {
  import opened Wrappers

  datatype Colour = Red | Green | Blue

  /** One "<count> <colour>" entry of a set, with the colour still as text. */
  datatype Draw = Draw(count: int, colour: string)

  /** A game line: its id and its "; "-separated sets, each a list of draws. */
  datatype Game = Game(id: int, sets: seq<seq<Draw>>)

  datatype Rgb = Rgb(red: int, green: int, blue: int) {
    function Get(c: Colour): int {
      match c
      case Red => red
      case Green => green
      case Blue => blue
    }

    function Set(c: Colour, n: int): Rgb {
      match c
      case Red => this.(red := n)
      case Green => this.(green := n)
      case Blue => this.(blue := n)
    }
  }

  /** The exception raised for a colour other than red, green or blue. */
  datatype Error = UnknownColour(colour: string)

  function ParseColour(s: string): Option<Colour> {
    match s
    case "red" => Some(Red)
    case "green" => Some(Green)
    case "blue" => Some(Blue)
    case _ => None
  }

  /** The counts of one set: every draw assigns its colour's count, starting from zero. */
  function SetCounts(draws: seq<Draw>): (r: Result<Rgb, Error>)
    ensures r.Ok? <==> AllColoursKnown(draws)
  {
    if draws == [] then Ok(Rgb(0, 0, 0))
    else
      var d := draws[|draws| - 1];
      match SetCounts(draws[..|draws| - 1])
      case Err(e) => Err(e)
      case Ok(rgb) =>
        match ParseColour(d.colour)
        case None => Err(UnknownColour(d.colour))
        case Some(c) => Ok(rgb.Set(c, d.count))
  }

  /** A set's count for a colour is that of the last draw of the colour, or 0 if none. */
  predicate IsLastCount(draws: seq<Draw>, c: Colour, n: int) {
    (exists i :: 0 <= i < |draws| && ParseColour(draws[i].colour) == Some(c) && draws[i].count == n
                 && forall j :: i < j < |draws| ==> ParseColour(draws[j].colour) != Some(c))
    || (n == 0 && forall j :: 0 <= j < |draws| ==> ParseColour(draws[j].colour) != Some(c))
  }

  predicate AllColoursKnown(draws: seq<Draw>) {
    forall j :: 0 <= j < |draws| ==> ParseColour(draws[j].colour).Some?
  }

  /** A set fails exactly when it names an unknown colour, and then with the first such. */
  lemma {:induction false} SetCountsOutcome(draws: seq<Draw>)
    ensures SetCounts(draws).Err? ==>
      exists j :: 0 <= j < |draws| && ParseColour(draws[j].colour).None?
                  && SetCounts(draws).error == UnknownColour(draws[j].colour)
                  && AllColoursKnown(draws[..j])
  {
    if draws != [] {
      var front := draws[..|draws| - 1];
      SetCountsOutcome(front);
      assert forall j :: 0 <= j < |front| ==> front[j] == draws[j];
      if SetCounts(front).Err? {
        var j :| 0 <= j < |front| && ParseColour(front[j].colour).None?
                  && SetCounts(front).error == UnknownColour(front[j].colour)
                  && AllColoursKnown(front[..j]);
        assert front[..j] == draws[..j];
      } else {
        assert front == draws[..|draws| - 1];
      }
    }
  }

  /** In a set with known colours, each colour's count is that of its last draw, or 0. */
  lemma {:induction false} SetCountsLastDraw(draws: seq<Draw>, c: Colour)
    requires SetCounts(draws).Ok?
    ensures IsLastCount(draws, c, SetCounts(draws).value.Get(c))
  {
    if draws != [] {
      var n := |draws| - 1;
      var front, d := draws[..n], draws[n];
      var rgb := SetCounts(front).value;
      var dc := ParseColour(d.colour).value;
      assert SetCounts(draws).value == rgb.Set(dc, d.count);
      if dc == c {
        assert SetCounts(draws).value.Get(c) == d.count by {
          match c
          case Red =>
          case Green =>
          case Blue =>
        }
        assert ParseColour(draws[n].colour) == Some(c) && draws[n].count == d.count;
      } else {
        assert SetCounts(draws).value.Get(c) == rgb.Get(c) by {
          match c
          case Red =>
          case Green =>
          case Blue =>
        }
        SetCountsLastDraw(front, c);
        LastCountExtend(front, d, c, rgb.Get(c));
        assert front + [d] == draws;
      }
    }
  }

  /** A draw of another colour does not change which draw of c is the last. */
  lemma LastCountExtend(draws: seq<Draw>, d: Draw, c: Colour, n: int)
    requires IsLastCount(draws, c, n) && ParseColour(d.colour) != Some(c)
    ensures IsLastCount(draws + [d], c, n)
  {
    var ext := draws + [d];
    if i :| 0 <= i < |draws| && ParseColour(draws[i].colour) == Some(c) && draws[i].count == n
            && forall j :: i < j < |draws| ==> ParseColour(draws[j].colour) != Some(c) {
      assert ext[i] == draws[i];
      assert forall j :: i < j < |ext| ==> ParseColour(ext[j].colour) != Some(c) by {
        forall j | i < j < |ext| ensures ParseColour(ext[j].colour) != Some(c) {
          if j < |draws| { assert ext[j] == draws[j]; }
        }
      }
    } else {
      forall j | 0 <= j < |ext| ensures ParseColour(ext[j].colour) != Some(c) {
        if j < |draws| { assert ext[j] == draws[j]; }
      }
    }
  }

  /** The count of colour c in a set, 0 when the set fails. */
  function SetCount(draws: seq<Draw>, c: Colour): int {
    match SetCounts(draws)
    case Ok(rgb) => rgb.Get(c)
    case Err(_) => 0
  }

  function Max(a: int, b: int): int {
    if a >= b then a else b
  }

  /** The largest count of each colour over the sets of a game, starting from zero. */
  function GameMax(sets: seq<seq<Draw>>): (r: Result<Rgb, Error>)
    ensures r.Ok? ==> r.value.red >= 0 && r.value.green >= 0 && r.value.blue >= 0
  {
    if sets == [] then Ok(Rgb(0, 0, 0))
    else
      match GameMax(sets[..|sets| - 1])
      case Err(e) => Err(e)
      case Ok(m) =>
        match SetCounts(sets[|sets| - 1])
        case Err(e) => Err(e)
        case Ok(s) => Ok(Rgb(Max(s.red, m.red), Max(s.green, m.green), Max(s.blue, m.blue)))
  }

  /** The game maximum is the largest set count of each colour (0 when every count is below
      zero or there are no sets); it exists exactly when every set names only known colours. */
  lemma {:induction false} GameMaxSpec(sets: seq<seq<Draw>>)
    ensures GameMax(sets).Ok? <==> forall i :: 0 <= i < |sets| ==> SetCounts(sets[i]).Ok?
    ensures GameMax(sets).Ok? ==> forall c :: 0 <= GameMax(sets).value.Get(c)
    ensures GameMax(sets).Ok? ==> forall c, i :: 0 <= i < |sets| ==>
      SetCount(sets[i], c) <= GameMax(sets).value.Get(c)
    ensures GameMax(sets).Ok? ==> forall c :: (GameMax(sets).value.Get(c) == 0 ||
      exists i :: 0 <= i < |sets| && SetCount(sets[i], c) == GameMax(sets).value.Get(c))
  {
    if sets != [] {
      var front := sets[..|sets| - 1];
      GameMaxSpec(front);
      assert forall i :: 0 <= i < |front| ==> front[i] == sets[i];
      if GameMax(sets).Ok? {
        var m, s := GameMax(front).value, SetCounts(sets[|sets| - 1]).value;
        var r := GameMax(sets).value;
        forall c ensures r.Get(c) == Max(s.Get(c), m.Get(c)) {
          match c
          case Red =>
          case Green =>
          case Blue =>
        }
        forall c ensures r.Get(c) == 0 ||
          exists i :: 0 <= i < |sets| && SetCount(sets[i], c) == r.Get(c)
        {
          if s.Get(c) < m.Get(c) && m.Get(c) != 0 {
            var i :| 0 <= i < |front| && SetCount(front[i], c) == m.Get(c);
            assert SetCount(sets[i], c) == r.Get(c);
          } else if s.Get(c) >= m.Get(c) {
            assert SetCount(sets[|sets| - 1], c) == r.Get(c);
          }
        }
      }
    }
  }

  /** The three comparisons against the thresholds, one per colour. */
  predicate Possible(max: Rgb, limits: Rgb)
    ensures Possible(max, limits) <==> forall c :: max.Get(c) <= limits.Get(c)
  {
    assert max.red == max.Get(Red) && max.green == max.Get(Green) && max.blue == max.Get(Blue);
    assert limits.red == limits.Get(Red) && limits.green == limits.Get(Green) && limits.blue == limits.Get(Blue);
    max.red <= limits.red && max.green <= limits.green && max.blue <= limits.blue
  }

  /** The product of the three maxima: never negative for counts of at least zero, and 0
      for a game that never shows some colour. */
  function Power(max: Rgb): (p: int)
    ensures max.red >= 0 && max.green >= 0 && max.blue >= 0 ==> p >= 0
    ensures max.red == 0 || max.green == 0 || max.blue == 0 ==> p == 0
  {
    assert max.red >= 0 && max.green >= 0 ==> max.red * max.green >= 0;
    max.red * max.green * max.blue
  }

  /** A game is possible exactly when no threshold is negative and every set's count of
      every colour is within its threshold. */
  lemma PossibleIff(g: Game, limits: Rgb)
    requires GameMax(g.sets).Ok?
    ensures Possible(GameMax(g.sets).value, limits) <==>
      forall c :: 0 <= limits.Get(c) &&
        forall i :: 0 <= i < |g.sets| ==> SetCount(g.sets[i], c) <= limits.Get(c)
  {
    GameMaxSpec(g.sets);
    var m := GameMax(g.sets).value;
    assert m.red == m.Get(Red) && m.green == m.Get(Green) && m.blue == m.Get(Blue);
    if forall c :: 0 <= limits.Get(c) &&
        forall i :: 0 <= i < |g.sets| ==> SetCount(g.sets[i], c) <= limits.Get(c)
    {
      forall c ensures m.Get(c) <= limits.Get(c) {
        if m.Get(c) != 0 {
          var i :| 0 <= i < |g.sets| && SetCount(g.sets[i], c) == m.Get(c);
        }
      }
    }
  }

  /** The two checksums over the games read so far, or the first unknown colour. */
  function Checksums(games: seq<Game>, limits: Rgb): Result<(int, int), Error> {
    if games == [] then Ok((0, 0))
    else
      var g := games[|games| - 1];
      match Checksums(games[..|games| - 1], limits)
      case Err(e) => Err(e)
      case Ok((ids, power)) =>
        match GameMax(g.sets)
        case Err(e) => Err(e)
        case Ok(m) => Ok((if Possible(m, limits) then ids + g.id else ids, power + Power(m)))
  }

  /** The `for (String set : sets)` loop of one game: the largest count of each colour. */
  method MaxCubes(g: Game) returns (r: Result<Rgb, Error>)
    ensures r == GameMax(g.sets)
  {
    var maxRed, maxGreen, maxBlue := 0, 0, 0;
    for k := 0 to |g.sets|
      invariant GameMax(g.sets[..k]) == Ok(Rgb(maxRed, maxGreen, maxBlue))
    {
      var draws := g.sets[k];
      var red, green, blue := 0, 0, 0;
      for j := 0 to |draws|
        invariant SetCounts(draws[..j]) == Ok(Rgb(red, green, blue))
      {
        assert draws[..j + 1][..j] == draws[..j];
        match ParseColour(draws[j].colour)
        case Some(Red) => red := draws[j].count;
        case Some(Green) => green := draws[j].count;
        case Some(Blue) => blue := draws[j].count;
        case None =>
          ErrorPersists(g.sets, k, draws, j);
          return Err(UnknownColour(draws[j].colour));
      }
      assert draws[..|draws|] == draws;
      assert g.sets[..k + 1][..k] == g.sets[..k];
      maxRed, maxGreen, maxBlue := Max(red, maxRed), Max(green, maxGreen), Max(blue, maxBlue);
    }
    assert g.sets[..|g.sets|] == g.sets;
    r := Ok(Rgb(maxRed, maxGreen, maxBlue));
  }

  /** An unknown colour in draw j of set k makes the whole game fail with that colour, when
      the sets and draws before it were fine. */
  lemma ErrorPersists(sets: seq<seq<Draw>>, k: nat, draws: seq<Draw>, j: nat)
    requires k < |sets| && draws == sets[k] && j < |draws|
    requires GameMax(sets[..k]).Ok? && SetCounts(draws[..j]).Ok?
    requires ParseColour(draws[j].colour).None?
    ensures GameMax(sets) == Err(UnknownColour(draws[j].colour))
  {
    SetCountsFailsAt(draws, j);
    assert sets[..k + 1][..k] == sets[..k];
    assert GameMax(sets[..k + 1]) == Err(UnknownColour(draws[j].colour));
    GameMaxErrorPersists(sets, k + 1);
  }

  /** The first draw with an unknown colour decides the outcome of its set. */
  lemma SetCountsFailsAt(draws: seq<Draw>, j: nat)
    requires j < |draws| && SetCounts(draws[..j]).Ok? && ParseColour(draws[j].colour).None?
    ensures SetCounts(draws) == Err(UnknownColour(draws[j].colour))
  {
    assert draws[..j + 1][..j] == draws[..j];
    assert SetCounts(draws[..j + 1]) == Err(UnknownColour(draws[j].colour));
    SetCountsErrorPersists(draws, j + 1);
  }

  lemma {:induction false} SetCountsErrorPersists(draws: seq<Draw>, n: nat)
    requires n <= |draws| && SetCounts(draws[..n]).Err?
    ensures SetCounts(draws) == SetCounts(draws[..n])
    decreases |draws| - n
  {
    if n < |draws| {
      assert draws[..n + 1][..n] == draws[..n];
      SetCountsErrorPersists(draws, n + 1);
    } else {
      assert draws[..n] == draws;
    }
  }

  lemma {:induction false} GameMaxErrorPersists(sets: seq<seq<Draw>>, n: nat)
    requires n <= |sets| && GameMax(sets[..n]).Err?
    ensures GameMax(sets) == GameMax(sets[..n])
    decreases |sets| - n
  {
    if n < |sets| {
      assert sets[..n + 1][..n] == sets[..n];
      GameMaxErrorPersists(sets, n + 1);
    } else {
      assert sets[..n] == sets;
    }
  }

  lemma {:induction false} ChecksumsErrorPersists(games: seq<Game>, limits: Rgb, n: nat)
    requires n <= |games| && Checksums(games[..n], limits).Err?
    ensures Checksums(games, limits) == Checksums(games[..n], limits)
    decreases |games| - n
  {
    if n < |games| {
      assert games[..n + 1][..n] == games[..n];
      ChecksumsErrorPersists(games, limits, n + 1);
    } else {
      assert games[..n] == games;
    }
  }

  /** The test's loop over the lines: the game id checksum and the power checksum. */
  method Day2(games: seq<Game>, limits: Rgb) returns (r: Result<(int, int), Error>)
    ensures r == Checksums(games, limits)
  {
    var gameIdChecksum, powerOfCubesChecksum := 0, 0;
    for i := 0 to |games|
      invariant Checksums(games[..i], limits) == Ok((gameIdChecksum, powerOfCubesChecksum))
    {
      assert games[..i + 1][..i] == games[..i];
      var max := MaxCubes(games[i]);
      if max.Err? {
        ChecksumsErrorPersists(games, limits, i + 1);
        return Err(max.error);
      }
      var m := max.value;
      var possible := m.red <= limits.red && m.green <= limits.green && m.blue <= limits.blue;
      if possible {
        gameIdChecksum := gameIdChecksum + games[i].id;
      }
      powerOfCubesChecksum := powerOfCubesChecksum + m.red * m.green * m.blue;
    }
    assert games[..|games|] == games;
    r := Ok((gameIdChecksum, powerOfCubesChecksum));
  }

  /** Every game with known colours adds a power of at least zero, and only possible games
      add their id. */
  lemma {:induction false} ChecksumsStep(games: seq<Game>, g: Game, limits: Rgb)
    requires Checksums(games, limits).Ok? && GameMax(g.sets).Ok?
    ensures var (ids, power) := Checksums(games, limits).value;
      var m := GameMax(g.sets).value;
      Checksums(games + [g], limits) ==
        Ok((if Possible(m, limits) then ids + g.id else ids, power + Power(m)))
    ensures Power(GameMax(g.sets).value) >= 0
  {
    assert (games + [g])[..|games + [g]| - 1] == games;
  }
}
