/** The currency service: its denomination templates, the simulated
    detector (its random draws are parameters) and the average-colour
    features of an RGBA frame. The network the service builds is outside
    the model; only its output width is kept, to compare with the table. */
module CurrencyRecognition {
  import opened Optional

  datatype Template = Template(denomination: string, features: seq<real>)

  const Bills: seq<Template> := [
    Template("$1", [0.1, 0.2, 0.3, 0.4]),
    Template("$5", [0.2, 0.3, 0.4, 0.5]),
    Template("$10", [0.3, 0.4, 0.5, 0.6]),
    Template("$20", [0.4, 0.5, 0.6, 0.7]),
    Template("$50", [0.5, 0.6, 0.7, 0.8]),
    Template("$100", [0.6, 0.7, 0.8, 0.9])
  ]

  const Coins: seq<Template> := [
    Template("$0.01", [0.1, 0.1, 0.2, 0.2]),
    Template("$0.05", [0.2, 0.2, 0.3, 0.3]),
    Template("$0.10", [0.3, 0.3, 0.4, 0.4]),
    Template("$0.25", [0.4, 0.4, 0.5, 0.5]),
    Template("$0.50", [0.5, 0.5, 0.6, 0.6]),
    Template("$1.00", [0.6, 0.6, 0.7, 0.7])
  ]

  /** The width of the classifier's softmax layer. */
  const OutputUnits: nat := 12

  /** Every template has four features, and the two tables together have
      one entry per output unit. */
  lemma TemplateTable()
    ensures |Bills| == 6 && |Coins| == 6 && |Bills| + |Coins| == OutputUnits
    ensures forall i :: 0 <= i < |Bills| ==> |Bills[i].features| == 4
    ensures forall i :: 0 <= i < |Coins| ==> |Coins[i].features| == 4
  {
  }

  datatype Kind = Bill | Coin

  datatype BoundingBox = BoundingBox(x: real, y: real, width: real, height: int)

  datatype CurrencyResult = CurrencyResult(
    kind: Kind,
    denomination: string,
    currency: string,
    confidence: int,
    boundingBox: BoundingBox)

  /** The seven `Math.random()` draws of one simulated detection, in the
      order the detector takes them. */
  datatype Draws = Draws(
    presence: real,
    kindDraw: real,
    templateDraw: real,
    confidenceDraw: real,
    xDraw: real,
    yDraw: real,
    widthDraw: real)

  predicate Unit(r: real) { 0.0 <= r < 1.0 }

  predicate ValidDraws(d: Draws)
  {
    Unit(d.presence) && Unit(d.kindDraw) && Unit(d.templateDraw) && Unit(d.confidenceDraw) &&
    Unit(d.xDraw) && Unit(d.yDraw) && Unit(d.widthDraw)
  }

  /** `Math.floor(r * n)`: always an index of a table of length `n`. */
  function TemplateIndex(r: real, n: nat): (k: nat)
    requires Unit(r) && n > 0
    ensures k < n
  {
    var x := r * n as real;
    assert 0.0 <= x < n as real;
    x.Floor
  }

  /** `Math.floor(85 + r * 14)`: between 85 and 98, so 99 never occurs. */
  function Confidence(r: real): (c: int)
    requires Unit(r)
    ensures 85 <= c <= 98
  {
    (85.0 + r * 14.0).Floor
  }

  /** Every confidence from 85 to 98 is produced by some draw. */
  lemma ConfidenceReaches(c: int)
    requires 85 <= c <= 98
    ensures Unit((c - 85) as real / 14.0) && Confidence((c - 85) as real / 14.0) == c
  {
    var r := (c - 85) as real / 14.0;
    assert r * 14.0 == (c - 85) as real;
    assert 85.0 + r * 14.0 == c as real;
  }

  /** simulateCurrencyDetection: nothing unless the first draw exceeds
      0.4; then one result, a bill when the second draw exceeds 0.3 and a
      coin otherwise, its denomination taken from that table. */
  function SimulateCurrencyDetection(d: Draws): (r: seq<CurrencyResult>)
    requires ValidDraws(d)
    ensures |r| <= 1
    ensures r == [] <==> d.presence <= 0.4
    ensures r != [] ==> (r[0].kind == Bill <==> d.kindDraw > 0.3)
    ensures r != [] ==> r[0].currency == "USD" && r[0].boundingBox.height == 75
    ensures r != [] ==> 85 <= r[0].confidence <= 98
    ensures r != [] && r[0].kind == Bill ==> exists i :: 0 <= i < |Bills| && Bills[i].denomination == r[0].denomination
    ensures r != [] && r[0].kind == Coin ==> exists i :: 0 <= i < |Coins| && Coins[i].denomination == r[0].denomination
  {
    if d.presence <= 0.4 then []
    else
      var isBill := d.kindDraw > 0.3;
      var templates := if isBill then Bills else Coins;
      var k := TemplateIndex(d.templateDraw, |templates|);
      [CurrencyResult(
        if isBill then Bill else Coin,
        templates[k].denomination,
        "USD",
        Confidence(d.confidenceDraw),
        BoundingBox(50.0 + d.xDraw * 100.0, 50.0 + d.yDraw * 100.0, 150.0 + d.widthDraw * 50.0,
                    if isBill then 75 else 75))]
  }

  // ---------------------------------------------------------------------
  // Colour features

  newtype byte = x: int | 0 <= x < 256

  /** The sum of channel `c` over the first `n` pixels of RGBA data. */
  function ChannelSum(data: seq<byte>, c: nat, n: nat): (s: int)
    requires c < 4 && 4 * n <= |data|
    ensures 0 <= s <= 255 * n
  {
    if n == 0 then 0 else ChannelSum(data, c, n - 1) + data[4 * (n - 1) + c] as int
  }

  /** A channel's mean scaled to [0, 1]. */
  function MeanLevel(sum: int, pixels: nat): (f: real)
    requires pixels > 0 && 0 <= sum <= 255 * pixels
    ensures 0.0 <= f <= 1.0
  {
    assert sum as real <= 255.0 * pixels as real;
    var mean := sum as real / pixels as real;
    assert mean * pixels as real == sum as real;
    assert mean <= 255.0;
    mean / 255.0
  }

  /** analyzeCurrencyFeatures: the mean red, green and blue levels of the
      frame, each in [0, 1], then one texture draw. ImageData always holds
      at least one pixel of four bytes. */
  method AnalyzeCurrencyFeatures(data: array<byte>, textureDraw: real) returns (features: seq<real>)
    requires data.Length >= 4 && data.Length % 4 == 0
    ensures |features| == 4
    ensures forall c :: 0 <= c < 3 ==>
      features[c] == MeanLevel(ChannelSum(data[..], c, data.Length / 4), data.Length / 4)
    ensures forall c :: 0 <= c < 3 ==> 0.0 <= features[c] <= 1.0
    ensures features[3] == textureDraw
  {
    var r, g, b := 0, 0, 0;
    var i := 0;
    while i < data.Length
      invariant 0 <= i <= data.Length && i % 4 == 0
      invariant r == ChannelSum(data[..], 0, i / 4)
      invariant g == ChannelSum(data[..], 1, i / 4)
      invariant b == ChannelSum(data[..], 2, i / 4)
    {
      assert (i + 4) / 4 - 1 == i / 4 && 4 * (i / 4) == i;
      r := r + data[i] as int;
      g := g + data[i + 1] as int;
      b := b + data[i + 2] as int;
      i := i + 4;
    }
    var pixelCount := data.Length / 4;
    features := [MeanLevel(r, pixelCount), MeanLevel(g, pixelCount), MeanLevel(b, pixelCount), textureDraw];
  }

  // ---------------------------------------------------------------------
  // The service

  class Recognizer {
    var isInitialized: bool

    constructor ()
      ensures !isInitialized
    {
      isInitialized := false;
    }

    /** initialize: once set, the flag stays; `loaded` says whether the
        model could be built. */
    method Initialize(loaded: bool)
      modifies this
      ensures isInitialized == (old(isInitialized) || loaded)
    {
      if !isInitialized && loaded {
        isInitialized := true;
      }
    }

    /** recognizeCurrency: initialise first when needed; a frame that cannot
        be read is an error and gives no results; otherwise the simulated
        detection. */
    method RecognizeCurrency(loaded: bool, frameReadable: bool, d: Draws) returns (results: seq<CurrencyResult>)
      requires ValidDraws(d)
      modifies this
      ensures isInitialized == (old(isInitialized) || loaded)
      ensures !frameReadable ==> results == []
      ensures frameReadable ==> results == SimulateCurrencyDetection(d)
    {
      if !isInitialized {
        Initialize(loaded);
      }
      if !frameReadable {
        return [];
      }
      results := SimulateCurrencyDetection(d);
    }
  }
}
