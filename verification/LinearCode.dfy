// A 2-of-4 code over the field of 257 elements that meets the law the engine
// relies on: data a and b, parities a + b and a + 2b.
module LinearCode {
  import opened Prelude
  import opened Erasure

  // The solution of the two equations given by the chunks of index x < y.
  function SolveFirst(x: nat, y: nat, u: Symbol, v: Symbol): Symbol {
    match (x, y)
    case (0, _) => u
    case (1, 2) => (v - u) % 257
    case (1, _) => (v - 2 * u) % 257
    case _ => (2 * u - v) % 257
  }

  function SolveSecond(x: nat, y: nat, u: Symbol, v: Symbol): Symbol {
    match (x, y)
    case (0, 1) => v
    case (0, 2) => (v - u) % 257
    case (0, _) => (129 * (v - u)) % 257
    case (1, _) => u
    case _ => (v - u) % 257
  }

  function Coefficient(i: nat, a: Symbol, b: Symbol): Symbol {
    match i
    case 0 => a
    case 1 => b
    case 2 => (a + b) % 257
    case _ => (a + 2 * b) % 257
  }

  lemma ModIs(x: int, q: int, r: Symbol)
    requires x == 257 * q + r
    ensures x % 257 == r
  {
  }

  // Any two of the four chunks determine both data symbols.
  lemma Solves(x: nat, y: nat, a: Symbol, b: Symbol)
    requires x < y < 4
    ensures SolveFirst(x, y, Coefficient(x, a, b), Coefficient(y, a, b)) == a
    ensures SolveSecond(x, y, Coefficient(x, a, b), Coefficient(y, a, b)) == b
  {
    var p, q := (a + b) / 257, (a + 2 * b) / 257;
    var c, d := (a + b) % 257, (a + 2 * b) % 257;
    assert c == a + b - 257 * p && d == a + 2 * b - 257 * q;
    ModIs(c - a, -p, b);
    ModIs(129 * (d - a), b - 129 * q, b);
    ModIs(c - b, -p, a);
    ModIs(d - 2 * b, -q, a);
    ModIs(2 * c - d, q - 2 * p, a);
    ModIs(d - c, p - q, b);
  }

  function Parity(i: nat, a: Chunk, b: Chunk): Chunk
    requires |a| == |b|
  {
    seq(|a|, j requires 0 <= j < |a| => Coefficient(i, a[j], b[j]))
  }

  function SpreadTwo(a: Chunk, b: Chunk): seq<Chunk>
    requires |a| == |b|
  {
    [a, b, Parity(2, a, b), Parity(3, a, b)]
  }

  function Spread(chunkSize: nat, padded: seq<Symbol>): seq<Chunk> {
    if |padded| == 2 * chunkSize then SpreadTwo(padded[..chunkSize], padded[chunkSize..]) else []
  }

  // The two lowest surviving indexes and their chunks give a and b.
  function Rebuild(ordered: seq<Chunk>, erased: seq<nat>): seq<Chunk> {
    var left := Ascending(4, Below(4) - IndexesOf(erased));
    if |left| < 2 || |ordered| < 2 || |ordered[0]| != |ordered[1]| then []
    else
      var x, y, u, v := left[0], left[1], ordered[0], ordered[1];
      SpreadTwo(seq(|u|, j requires 0 <= j < |u| => SolveFirst(x, y, u[j], v[j])),
                seq(|u|, j requires 0 <= j < |u| => SolveSecond(x, y, u[j], v[j])))
  }

  function TwoOfFour(chunkSize: nat): Codec {
    Codec(Config(4, 2, chunkSize), padded => Spread(chunkSize, padded), (ordered, erased) => Rebuild(ordered, erased))
  }

  lemma TwoOfFourIsLawful(chunkSize: nat)
    requires chunkSize > 0
    ensures Lawful(TwoOfFour(chunkSize))
  {
    var c := TwoOfFour(chunkSize);
    forall padded: seq<Symbol> | |padded| == c.config.k * c.config.chunkSize ensures Systematic(c, padded) {
      SpreadIsSystematic(chunkSize, padded);
    }
    forall padded: seq<Symbol>, erased: set<nat> |
      |padded| == c.config.k * c.config.chunkSize && erased != {} && erased <= Below(c.config.n)
      && |Below(c.config.n) - erased| >= c.config.k
      ensures Recoverable(c, padded, erased)
    {
      RebuildRecovers(chunkSize, padded, erased);
    }
  }

  lemma SpreadIsSystematic(chunkSize: nat, padded: seq<Symbol>)
    requires |padded| == 2 * chunkSize
    ensures Systematic(TwoOfFour(chunkSize), padded)
  {
    var chunks := Spread(chunkSize, padded);
    var data := chunks[..2];
    assert data[1..] == [chunks[1]];
    var none: seq<Chunk> := data[1..][1..];
    assert none == [];
    assert Flatten(data[1..]) == chunks[1];
    assert chunks[0] + chunks[1] == padded;
  }

  // The chunks of index x and y, symbol by symbol, solve for the data.
  lemma SolvesChunks(a: Chunk, b: Chunk, x: nat, y: nat, u: Chunk, v: Chunk)
    requires |a| == |b| && x < y < 4 && u == SpreadTwo(a, b)[x] && v == SpreadTwo(a, b)[y]
    ensures |u| == |v| == |a|
    ensures seq(|u|, j requires 0 <= j < |u| => SolveFirst(x, y, u[j], v[j])) == a
    ensures seq(|u|, j requires 0 <= j < |u| => SolveSecond(x, y, u[j], v[j])) == b
  {
    forall j | 0 <= j < |a|
      ensures SolveFirst(x, y, u[j], v[j]) == a[j] && SolveSecond(x, y, u[j], v[j]) == b[j]
    {
      assert u[j] == Coefficient(x, a[j], b[j]) && v[j] == Coefficient(y, a[j], b[j]);
      Solves(x, y, a[j], b[j]);
    }
    hide SolveFirst, SolveSecond;
  }

  // The two lowest surviving chunks and their indexes.
  lemma FirstTwoLeft(chunks: seq<Chunk>, erased: set<nat>)
    requires |chunks| == 4 && erased <= Below(4) && |Below(4) - erased| >= 2
    ensures var left := Below(4) - erased;
            var indexes, picked := Ascending(4, left), Pick(chunks, 4, left);
            && IndexesOf(Ascending(4, erased)) == erased
            && |indexes| >= 2 && |picked| >= 2 && indexes[0] < indexes[1] < 4
            && picked[0] == chunks[indexes[0]] && picked[1] == chunks[indexes[1]]
  {
    var left := Below(4) - erased;
    AscendingMembers(4, erased);
    assert IndexesOf(Ascending(4, erased)) == erased;
    hide Ascending, Pick, Below;
    AscendingSize(4, left);
    assert left * Below(4) == left;
    AscendingAt(chunks, 4, left, 0);
    AscendingAt(chunks, 4, left, 1);
  }

  lemma RebuildRecovers(chunkSize: nat, padded: seq<Symbol>, erased: set<nat>)
    requires |padded| == 2 * chunkSize && erased <= Below(4) && |Below(4) - erased| >= 2
    ensures Recoverable(TwoOfFour(chunkSize), padded, erased)
  {
    hide Ascending, Below, Pick, IndexesOf, SolveFirst, SolveSecond, Coefficient;
    var a, b := padded[..chunkSize], padded[chunkSize..];
    var chunks, left := Spread(chunkSize, padded), Below(4) - erased;
    FirstTwoLeft(chunks, erased);
    var x, y := Ascending(4, left)[0], Ascending(4, left)[1];
    SolvesChunks(a, b, x, y, chunks[x], chunks[y]);
  }
}
