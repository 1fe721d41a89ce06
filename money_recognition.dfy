/** The money screen: a scan is started, and when its timer fires one of
    seven mock results is recognised, added to the running total and to
    the list of scanned items, and announced. The total is kept in cents;
    the timer is split into a start step and a completion step, and the
    mock pick is a random draw given as a parameter. */
module MoneyRecognition {
  import opened Optional
  import opened Text
  import opened Seqs
  import CurrencyRecognition

  datatype Kind = Bill | Coin

  datatype Currency = Currency(kind: Kind, denomination: string, currency: string, confidence: int)

  const MockCurrencies: seq<Currency> := [
    Currency(Bill, "$20", "USD", 98),
    Currency(Bill, "$10", "USD", 95),
    Currency(Bill, "$5", "USD", 97),
    Currency(Bill, "$1", "USD", 99),
    Currency(Coin, "$0.25", "USD", 92),
    Currency(Coin, "$0.10", "USD", 94),
    Currency(Coin, "$0.05", "USD", 96)
  ]

  /** Where the first `c` of `s` is. */
  function FirstIndexOf(s: string, c: char): (k: nat)
    requires c in s
    ensures k < |s| && s[k] == c && c !in s[..k]
  {
    if s[0] == c then 0
    else
      var k := 1 + FirstIndexOf(s[1..], c);
      assert s[..k] == [s[0]] + s[1..][..k - 1];
      k
  }

  /** `s.replace(c, '')` with a string pattern: only the first occurrence
      goes. */
  function RemoveFirst(s: string, c: char): (r: string)
    ensures c in s ==> |r| == |s| - 1
    ensures c !in s ==> r == s
  {
    if s == [] then []
    else if s[0] == c then s[1..]
    else [s[0]] + RemoveFirst(s[1..], c)
  }

  /** The occurrence removed is the first one; the rest of the string is
      kept in order. */
  lemma {:induction false} RemovesFirstOccurrence(s: string, c: char)
    requires c in s
    ensures RemoveFirst(s, c) == s[..FirstIndexOf(s, c)] + s[FirstIndexOf(s, c) + 1..]
  {
    if s[0] != c {
      RemovesFirstOccurrence(s[1..], c);
      var j := FirstIndexOf(s[1..], c);
      assert s[..j + 1] == [s[0]] + s[1..][..j];
      assert s[j + 2..] == s[1..][j + 1..];
    }
  }

  predicate AllDigits(s: string)
  {
    forall i :: 0 <= i < |s| ==> IsDigit(s[i])
  }

  /** parseFloat of a dollar amount written as digits with at most two
      decimals, in cents; None for anything else. */
  function ParseCents(s: string): (r: Option<nat>)
    ensures s != [] && AllDigits(s) ==> r == Some(100 * DecimalValue(s))
    ensures r.Some? ==> s != [] && '$' !in s
  {
    match FindIndex(s, (c: char) => c == '.')
    case None =>
      if s != [] && AllDigits(s) then Some(100 * DecimalValue(s)) else None
    case Some(k) =>
      var whole := s[..k];
      var fraction := s[k + 1..];
      if whole != [] && AllDigits(whole) && AllDigits(fraction) && |fraction| <= 2 then
        var scale := if |fraction| == 0 then 100 else if |fraction| == 1 then 10 else 1;
        Some(100 * DecimalValue(whole) + scale * DecimalValue(fraction))
      else None
  }

  /** The value a completed scan adds: the '$'-stripped denomination. */
  function Cents(c: Currency): nat
  {
    match ParseCents(RemoveFirst(c.denomination, '$'))
    case None => 0
    case Some(v) => v
  }

  function SumCents(items: seq<Currency>): nat
  {
    if items == [] then 0 else SumCents(items[..|items| - 1]) + Cents(items[|items| - 1])
  }

  lemma SumCentsAppend(items: seq<Currency>, c: Currency)
    ensures SumCents(items + [c]) == SumCents(items) + Cents(c)
  {
    assert (items + [c])[..|items|] == items;
  }

  /** The value of each mock result, in cents. */
  const MockCents: seq<nat> := [2000, 1000, 500, 100, 25, 10, 5]

  /** Every mock denomination parses, to $20, $10, $5, $1, 25c, 10c and
      5c. */
  lemma MockValues()
    ensures forall i :: 0 <= i < |MockCurrencies| ==>
      ParseCents(RemoveFirst(MockCurrencies[i].denomination, '$')) == Some(MockCents[i])
    ensures forall i :: 0 <= i < |MockCurrencies| ==> Cents(MockCurrencies[i]) == MockCents[i]
  {
    forall i | 0 <= i < |MockCurrencies|
      ensures ParseCents(RemoveFirst(MockCurrencies[i].denomination, '$')) == Some(MockCents[i])
    {
      MockValueAt(i);
    }
  }

  lemma MockValueAt(i: nat)
    requires i < |MockCurrencies|
    ensures ParseCents(RemoveFirst(MockCurrencies[i].denomination, '$')) == Some(MockCents[i])
  {
    var d := MockCurrencies[i].denomination;
    if i == 0 {
      assert d == "$" + "20";
      assert DecimalValue("20") == 20 by { assert "20"[..1] == "2"; }
      WholeDollars("20");
    } else if i == 1 {
      assert d == "$" + "10";
      assert DecimalValue("10") == 10 by { assert "10"[..1] == "1"; }
      WholeDollars("10");
    } else if i == 2 {
      assert d == "$" + "5";
      WholeDollars("5");
    } else if i == 3 {
      assert d == "$" + "1";
      WholeDollars("1");
    } else if i == 4 {
      assert d == "$" + ("0." + "25");
      assert DecimalValue("25") == 25 by { assert "25"[..1] == "2"; }
      CoinCents("25");
    } else if i == 5 {
      assert d == "$" + ("0." + "10");
      assert DecimalValue("10") == 10 by { assert "10"[..1] == "1"; }
      CoinCents("10");
    } else {
      assert d == "$" + ("0." + "05");
      assert DecimalValue("05") == 5 by { assert "05"[..1] == "0"; }
      CoinCents("05");
    }
  }

  /** A leading '$' is the one removed. */
  lemma DropDollar(s: string)
    ensures RemoveFirst("$" + s, '$') == s
  {
    assert ("$" + s)[0] == '$' && ("$" + s)[1..] == s;
  }

  lemma WholeDollars(s: string)
    requires s != [] && AllDigits(s)
    ensures RemoveFirst("$" + s, '$') == s
    ensures ParseCents(s) == Some(100 * DecimalValue(s))
  {
    DropDollar(s);
  }

  lemma CoinCents(f: string)
    requires |f| == 2 && AllDigits(f)
    ensures RemoveFirst("$" + ("0." + f), '$') == "0." + f
    ensures ParseCents("0." + f) == Some(DecimalValue(f))
  {
    DropDollar("0." + f);
    var s := "0." + f;
    assert s[0] == '0' && s[1] == '.';
    assert FindIndex(s, (c: char) => c == '.') == Some(1);
    assert s[..1] == "0" && s[2..] == f;
    assert DecimalValue("0") == 0;
  }

  /** What the screen says aloud. */
  datatype Announcement =
    | Recognized(kind: Kind, denomination: string, currency: string, confidence: int, totalCents: nat)
    | TotalReport(totalCents: nat, items: nat)
    | Cleared

  class Scanner {
    var isScanning: bool
    var recognized: Option<Currency>
    var totalCents: nat
    var scannedItems: seq<Currency>
    /** The announcements handed to the synthesizer, oldest first. */
    var announcements: seq<Announcement>
    /** The total as the scan's completion callback sees it: the value at
        the render that started the scan. */
    var capturedTotal: nat
    /** Speech synthesis exists in this browser. */
    const hasSynthesis: bool

    /** The running total is the sum of the scanned items. */
    ghost predicate Valid()
      reads this
    {
      totalCents == SumCents(scannedItems)
    }

    constructor (hasSynthesis: bool)
      ensures Valid() && this.hasSynthesis == hasSynthesis
      ensures !isScanning && recognized == None && totalCents == 0 && scannedItems == [] && announcements == []
    {
      this.hasSynthesis := hasSynthesis;
      isScanning := false;
      recognized := None;
      totalCents := 0;
      scannedItems := [];
      announcements := [];
      capturedTotal := 0;
    }

    /** The scan button, disabled while a scan runs. */
    method StartScan()
      requires !isScanning
      modifies this`isScanning, this`recognized, this`capturedTotal
      ensures isScanning && recognized == None && capturedTotal == totalCents
    {
      isScanning := true;
      recognized := None;
      capturedTotal := totalCents;
    }

    /** The state part of the scan's completion: the picked mock result is
        shown, appended to the items and added to the total. */
    method Record(pick: real) returns (c: Currency)
      requires isScanning && Valid() && CurrencyRecognition.Unit(pick)
      modifies this`isScanning, this`recognized, this`totalCents, this`scannedItems
      ensures Valid() && !isScanning && c == Pick(pick) && recognized == Some(c)
      ensures scannedItems == old(scannedItems) + [c]
      ensures totalCents == old(totalCents) + Cents(c)
    {
      c := Pick(pick);
      recognized := Some(c);
      isScanning := false;
      SumCentsAppend(scannedItems, c);
      totalCents := totalCents + Cents(c);
      scannedItems := scannedItems + [c];
    }

    /** The scan's completion with the announced total the evident intent
        calls for: the new running total. */
    method CompleteScan(pick: real)
      requires isScanning && Valid() && CurrencyRecognition.Unit(pick)
      modifies this`isScanning, this`recognized, this`totalCents, this`scannedItems, this`announcements
      ensures Valid() && !isScanning && recognized == Some(Pick(pick))
      ensures scannedItems == old(scannedItems) + [Pick(pick)]
      ensures totalCents == old(totalCents) + Cents(Pick(pick))
      ensures hasSynthesis ==> announcements == old(announcements) + [Announce(Pick(pick), totalCents)]
      ensures !hasSynthesis ==> announcements == old(announcements)
    {
      var c := Record(pick);
      if hasSynthesis {
        announcements := announcements + [Announce(c, totalCents)];
      }
    }

    /** The completion as written: the state is updated from the previous
        state, but the announced total adds the value to the total seen
        when the scan started. */
    method CompleteScanAsWritten(pick: real)
      requires isScanning && Valid() && CurrencyRecognition.Unit(pick)
      modifies this`isScanning, this`recognized, this`totalCents, this`scannedItems, this`announcements
      ensures Valid() && !isScanning && recognized == Some(Pick(pick))
      ensures scannedItems == old(scannedItems) + [Pick(pick)]
      ensures totalCents == old(totalCents) + Cents(Pick(pick))
      ensures hasSynthesis ==>
        announcements == old(announcements) + [StaleAnnouncement(Pick(pick), capturedTotal)]
      ensures !hasSynthesis ==> announcements == old(announcements)
    {
      var c := Record(pick);
      if hasSynthesis {
        announcements := announcements + [StaleAnnouncement(c, capturedTotal)];
      }
    }

    /** speakTotal: reports the total and the item count, and changes
        nothing else. */
    method SpeakTotal()
      modifies this`announcements
      ensures hasSynthesis ==> announcements == old(announcements) + [TotalReport(totalCents, |scannedItems|)]
      ensures !hasSynthesis ==> announcements == old(announcements)
    {
      if hasSynthesis {
        announcements := announcements + [TotalReport(totalCents, |scannedItems|)];
      }
    }

    /** clearTotal: the button stays enabled while a scan runs. */
    method ClearTotal()
      modifies this`totalCents, this`scannedItems, this`recognized, this`announcements
      ensures Valid() && totalCents == 0 && scannedItems == [] && recognized == None
      ensures hasSynthesis ==> announcements == old(announcements) + [Cleared]
      ensures !hasSynthesis ==> announcements == old(announcements)
    {
      totalCents := 0;
      scannedItems := [];
      recognized := None;
      if hasSynthesis {
        announcements := announcements + [Cleared];
      }
    }
  }

  /** `mockCurrencies[Math.floor(pick * 7)]`. */
  function Pick(pick: real): (c: Currency)
    requires CurrencyRecognition.Unit(pick)
  {
    MockCurrencies[CurrencyRecognition.TemplateIndex(pick, |MockCurrencies|)]
  }

  function Announce(c: Currency, totalCents: nat): Announcement
  {
    Recognized(c.kind, c.denomination, c.currency, c.confidence, totalCents)
  }

  /** What the completion as written announces: the value added to the
      total seen when the scan started. */
  function StaleAnnouncement(c: Currency, startTotal: nat): Announcement
  {
    Announce(c, startTotal + Cents(c))
  }

  /** Scan a $20 bill, start a second scan, clear the total while it runs,
      and let it find a $5 bill: as written, the announcement says $25
      while the total shown is $5. */
  method StaleTotalScenario() returns (announced: nat, shown: nat)
    ensures announced == 2500 && shown == 500
  {
    MockValues();
    var s := new Scanner(true);
    s.StartScan();
    s.CompleteScanAsWritten(0.0);
    s.StartScan();
    s.ClearTotal();
    s.CompleteScanAsWritten(0.3);
    assert s.announcements[|s.announcements| - 1] == Announce(MockCurrencies[2], 2500);
    announced := s.announcements[|s.announcements| - 1].totalCents;
    shown := s.totalCents;
  }

  /** The same steps with the corrected completion announce the total
      shown. */
  method CorrectedScenario() returns (announced: nat, shown: nat)
    ensures announced == 500 && shown == 500
  {
    MockValues();
    var s := new Scanner(true);
    s.StartScan();
    s.CompleteScan(0.0);
    s.StartScan();
    s.ClearTotal();
    s.CompleteScan(0.3);
    announced := s.announcements[|s.announcements| - 1].totalCents;
    shown := s.totalCents;
  }
}
