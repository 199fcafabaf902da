/**
 * `numberToWords` of the quotes page: an amount in rupees spelled out in
 * the Indian numbering system (crore, lakh, thousand, hundred).
 *
 * The words are first modelled as tokens (`NumberWord`), so that what the
 * phrase denotes can be read back by an independent evaluator (`Value`);
 * `Spell` then maps each token to the text the page prints, including the
 * string `undefined` that JavaScript yields for an index past the end of
 * the `ones` table.
 */
module NumberWords {
  import opened Text

  /** The `ones` table: index 0 is empty. */
  function OnesNames(): seq<string> { ["", "One", "Two", "Three", "Four", "Five", "Six", "Seven", "Eight",
    "Nine", "Ten", "Eleven", "Twelve", "Thirteen", "Fourteen", "Fifteen", "Sixteen", "Seventeen",
    "Eighteen", "Nineteen"]
  }

  /** The `tens` table: indices 0 and 1 are empty. */
  function TensNames(): seq<string> { ["", "", "Twenty", "Thirty", "Forty", "Fifty", "Sixty", "Seventy",
    "Eighty", "Ninety"]
  }

  /** One spelled-out token: `Unit(k)` is `ones[k]`, `Ten(k)` is `tens[k]`. */
  datatype NumberWord = Unit(k: int) | Ten(k: int) | Hundred | Thousand | Lakh | Crore

  /** The text of a token; an index outside a table reads as `undefined`. */
  function Spell(w: NumberWord): string {
    match w
    case Unit(k) => if 0 <= k < |OnesNames()| then OnesNames()[k] else "undefined"
    case Ten(k) => if 0 <= k < |TensNames()| then TensNames()[k] else "undefined"
    case Hundred => "Hundred"
    case Thousand => "Thousand"
    case Lakh => "Lakh"
    case Crore => "Crore"
  }

  function SpellAll(ws: seq<NumberWord>): (r: seq<string>)
    ensures |r| == |ws| && forall i :: 0 <= i < |ws| ==> r[i] == Spell(ws[i])
  {
    seq(|ws|, i requires 0 <= i < |ws| => Spell(ws[i]))
  }

  lemma SpellAllAppend(a: seq<NumberWord>, b: seq<NumberWord>)
    ensures SpellAll(a + b) == SpellAll(a) + SpellAll(b)
  {
    var l, r := SpellAll(a + b), SpellAll(a) + SpellAll(b);
    forall i | 0 <= i < |l| ensures l[i] == r[i] {
      if i < |a| {
        assert (a + b)[i] == a[i];
      } else {
        assert (a + b)[i] == b[i - |a|];
      }
    }
  }

  // ---------------------------------------------------------------------
  // The tokens of one group below a thousand.

  /**
   * What `convertLessThanOneThousand(n)` emits, token by token: the
   * hundreds digit with `Hundred`, then a tens word for 20..99, then a
   * units word for what is left when it is not zero.
   */
  function GroupWords(n: nat): (ws: seq<NumberWord>)
    ensures n == 0 <==> ws == []
  {
    HundredsWords(n) + TensWords(n) + UnitsWords(n)
  }

  /** The part of a group below one hundred. */
  function BelowHundred(n: nat): nat {
    n % 100
  }

  /** What is left for the units word: below twenty, or the last digit after a tens word. */
  function UnitsLeft(n: nat): nat {
    var m := BelowHundred(n);
    if m >= 20 then m % 10 else m
  }

  function HundredsWords(n: nat): seq<NumberWord> {
    if n >= 100 then [Unit(n / 100), Hundred] else []
  }

  function TensWords(n: nat): seq<NumberWord> {
    if BelowHundred(n) >= 20 then [Ten(BelowHundred(n) / 10)] else []
  }

  function UnitsWords(n: nat): seq<NumberWord> {
    if UnitsLeft(n) > 0 then [Unit(UnitsLeft(n))] else []
  }

  /** Tokens that are never an empty table entry: `ones[0]`, `tens[0]` and `tens[1]` are never emitted. */
  predicate Printable(w: NumberWord) {
    (w.Unit? ==> w.k >= 1) && (w.Ten? ==> w.k >= 2)
  }

  /** Every token of a group is printable, and a group below 2000 stays inside both tables. */
  lemma GroupWordsPrintable(n: nat)
    ensures forall i :: 0 <= i < |GroupWords(n)| ==> Printable(GroupWords(n)[i])
    ensures n < 2000 ==> forall i :: 0 <= i < |GroupWords(n)| ==> InTables(GroupWords(n)[i])
  {
  }

  /** A token that indexes inside its table. */
  predicate InTables(w: NumberWord) {
    (w.Unit? ==> 1 <= w.k < |OnesNames()|) && (w.Ten? ==> 2 <= w.k < |TensNames()|)
  }

  /** The spelling of a printable token is one word: non-empty, without spaces. */
  lemma SpellIsWord(w: NumberWord)
    requires Printable(w)
    ensures IsWord(Spell(w))
  {
    match w
    case Unit(k) =>
      if 0 <= k < |OnesNames()| {
        OnesAreWords(k);
      }
    case Ten(k) =>
      if 0 <= k < |TensNames()| {
        TensAreWords(k);
      }
    case _ =>
  }

  lemma OnesAreWords(k: int)
    requires 1 <= k < |OnesNames()|
    ensures IsWord(OnesNames()[k])
  {
    if k < 10 {
      if k < 5 {
        assert k == 1 || k == 2 || k == 3 || k == 4;
      } else {
        assert k == 5 || k == 6 || k == 7 || k == 8 || k == 9;
      }
    } else if k < 15 {
      assert k == 10 || k == 11 || k == 12 || k == 13 || k == 14;
    } else {
      assert k == 15 || k == 16 || k == 17 || k == 18 || k == 19;
    }
  }

  lemma TensAreWords(k: int)
    requires 2 <= k < |TensNames()|
    ensures IsWord(TensNames()[k])
  {
    if k < 6 {
      assert k == 2 || k == 3 || k == 4 || k == 5;
    } else {
      assert k == 6 || k == 7 || k == 8 || k == 9;
    }
  }

  lemma SpellAllWords(ws: seq<NumberWord>)
    requires forall i :: 0 <= i < |ws| ==> Printable(ws[i])
    ensures AllWords(SpellAll(ws))
  {
    forall i | 0 <= i < |ws| ensures IsWord(SpellAll(ws)[i]) {
      SpellIsWord(ws[i]);
    }
  }

  /** The text of a group: its words joined by single spaces. */
  function GroupText(n: nat): string {
    JoinWords(SpellAll(GroupWords(n)))
  }

  /** The untrimmed text `convertLessThanOneThousand` accumulates: every word followed by a space. */
  lemma GroupSpacedParts(n: nat)
    ensures Spaced(SpellAll(GroupWords(n))) == HundredsText(n) + TensText(n) + UnitsText(n)
  {
    var h, t, u := HundredsWords(n), TensWords(n), UnitsWords(n);
    SpellAllAppend(h + t, u);
    SpellAllAppend(h, t);
    SpacedAppend(SpellAll(h) + SpellAll(t), SpellAll(u));
    SpacedAppend(SpellAll(h), SpellAll(t));
    HundredsSpaced(n);
    TensSpaced(n);
    UnitsSpaced(n);
  }

  /** `ones[⌊n / 100⌋] + " Hundred "` when `n >= 100`. */
  function HundredsText(n: nat): string {
    if n >= 100 then OnesAt(n / 100) + " Hundred " else ""
  }

  /** `tens[⌊m / 10⌋] + " "` when the part below a hundred is at least 20. */
  function TensText(n: nat): string {
    if BelowHundred(n) >= 20 then TensAt(BelowHundred(n) / 10) + " " else ""
  }

  /** `ones[r] + " "` when a units word is left. */
  function UnitsText(n: nat): string {
    if UnitsLeft(n) > 0 then OnesAt(UnitsLeft(n)) + " " else ""
  }

  lemma HundredsSpaced(n: nat)
    ensures Spaced(SpellAll(HundredsWords(n))) == HundredsText(n)
  {
    if n >= 100 {
      assert SpellAll(HundredsWords(n)) == [OnesAt(n / 100), "Hundred"];
      var ws := [OnesAt(n / 100), "Hundred"];
      assert ws[1..] == ["Hundred"];
      assert Spaced(["Hundred"]) == "Hundred" + " " + Spaced([]);
      assert Spaced(ws) == OnesAt(n / 100) + " " + ("Hundred" + " " + "");
    } else {
      assert SpellAll(HundredsWords(n)) == [];
    }
  }

  lemma TensSpaced(n: nat)
    ensures Spaced(SpellAll(TensWords(n))) == TensText(n)
  {
    if BelowHundred(n) >= 20 {
      assert SpellAll(TensWords(n)) == [TensAt(BelowHundred(n) / 10)];
    } else {
      assert SpellAll(TensWords(n)) == [];
    }
  }

  lemma UnitsSpaced(n: nat)
    ensures Spaced(SpellAll(UnitsWords(n))) == UnitsText(n)
  {
    if UnitsLeft(n) > 0 {
      assert SpellAll(UnitsWords(n)) == [OnesAt(UnitsLeft(n))];
    } else {
      assert SpellAll(UnitsWords(n)) == [];
    }
  }

  /** Trimming the accumulated text gives the group's words joined by single spaces. */
  lemma GroupTrimmed(n: nat)
    ensures Trim(Spaced(SpellAll(GroupWords(n)))) == GroupText(n)
    ensures Words(GroupText(n)) == SpellAll(GroupWords(n))
  {
    GroupWordsPrintable(n);
    SpellAllWords(GroupWords(n));
    TrimSpaced(SpellAll(GroupWords(n)));
    WordsOfJoined(SpellAll(GroupWords(n)));
  }

  /** `convertLessThanOneThousand`: builds the words with trailing spaces, then trims. */
  method ConvertLessThanOneThousand(n0: nat) returns (s: string)
    ensures s == GroupText(n0)
    ensures Words(s) == SpellAll(GroupWords(n0))
  {
    var n := n0;
    var result := "";
    ghost var m, r := BelowHundred(n0), UnitsLeft(n0);
    ghost var h, t, u := HundredsText(n0), TensText(n0), UnitsText(n0);
    if n >= 100 {
      result := result + (OnesAt(n / 100) + " Hundred ");
      n := n % 100;
    }
    assert n == m && result == h;
    if n >= 20 {
      result := result + (TensAt(n / 10) + " ");
      n := n % 10;
    }
    assert n == r && result == h + t;
    if n > 0 {
      result := result + (OnesAt(n) + " ");
    }
    assert result == h + t + u;
    GroupSpacedParts(n0);
    GroupTrimmed(n0);
    s := Trim(result);
  }

  /** `ones[k]`. */
  function OnesAt(k: int): string {
    Spell(Unit(k))
  }

  /** `tens[k]`. */
  function TensAt(k: int): string {
    Spell(Ten(k))
  }

  // ---------------------------------------------------------------------
  // Reading a phrase back: an evaluator independent of how it was built.

  /** The running state of the evaluator: finished scales and the group in progress. */
  datatype Tally = Tally(total: int, current: int)

  /** Units and tens add to the group, `Hundred` scales it, a scale word closes it. */
  function Step(t: Tally, w: NumberWord): Tally {
    match w
    case Unit(k) => t.(current := t.current + k)
    case Ten(k) => t.(current := t.current + 10 * k)
    case Hundred => t.(current := t.current * 100)
    case Thousand => Tally(t.total + t.current * 1000, 0)
    case Lakh => Tally(t.total + t.current * 100000, 0)
    case Crore => Tally(t.total + t.current * 10000000, 0)
  }

  function Run(ws: seq<NumberWord>, t: Tally): Tally
    decreases |ws|
  {
    if ws == [] then t else Run(ws[1..], Step(t, ws[0]))
  }

  /** The number a sequence of tokens denotes. */
  function Value(ws: seq<NumberWord>): int {
    var t := Run(ws, Tally(0, 0));
    t.total + t.current
  }

  lemma {:induction false} RunAppend(a: seq<NumberWord>, b: seq<NumberWord>, t: Tally)
    ensures Run(a + b, t) == Run(b, Run(a, t))
    decreases |a|
  {
    if a != [] {
      assert (a + b)[1..] == a[1..] + b;
      RunAppend(a[1..], b, Step(t, a[0]));
    } else {
      assert a + b == b;
    }
  }

  /** Reading the tokens of a group from an empty group in progress yields that group. */
  lemma GroupRuns(n: nat, total: int)
    ensures Run(GroupWords(n), Tally(total, 0)) == Tally(total, n)
  {
    var h, t, u := HundredsWords(n), TensWords(n), UnitsWords(n);
    RunAppend(h + t, u, Tally(total, 0));
    RunAppend(h, t, Tally(total, 0));
    var t1 := Run(h, Tally(total, 0));
    if n >= 100 {
      assert h[1..] == [Hundred];
      assert Run(h, Tally(total, 0)) == Run([Hundred], Tally(total, n / 100));
      assert Run([Hundred], Tally(total, n / 100)) == Run([], Tally(total, n / 100 * 100));
    }
    assert t1 == Tally(total, n - BelowHundred(n));
    var t2 := Run(t, t1);
    assert t2 == Tally(total, n - UnitsLeft(n));
  }

  /** Every group below a thousand reads back as itself. */
  lemma GroupRoundTrip(n: nat)
    ensures Value(GroupWords(n)) == n
  {
    GroupRuns(n, 0);
  }

  // ---------------------------------------------------------------------
  // Splitting an amount into groups, with JavaScript's number operators.

  /** `Math.trunc`: rounds toward zero. */
  function Trunc(x: real): int {
    if x >= 0.0 then x.Floor else -((-x).Floor)
  }

  /** JavaScript's `a % b` on numbers: the remainder takes the sign of `a`. */
  function JsRem(a: real, b: real): real
    requires b != 0.0
  {
    a - b * Trunc(a / b) as real
  }

  datatype Groups = Groups(crore: int, lakh: int, thousand: int, remainder: int)

  /** The four `Math.floor` / `%=` steps that cut an amount into groups. */
  function SplitGroups(num: real): Groups {
    var crore := (num / 10000000.0).Floor;
    var n1 := JsRem(num, 10000000.0);
    var lakh := (n1 / 100000.0).Floor;
    var n2 := JsRem(n1, 100000.0);
    var thousand := (n2 / 1000.0).Floor;
    var n3 := JsRem(n2, 1000.0);
    Groups(crore, lakh, thousand, n3.Floor)
  }

  /** On a non-negative dividend the remainder is the Euclidean one. */
  lemma RemNonNegative(a: real, b: real)
    requires a >= 0.0 && b > 0.0
    ensures 0.0 <= JsRem(a, b) < b
    ensures a == b * (a / b).Floor as real + JsRem(a, b)
  {
    Quotient(a, b);
    var q := (a / b).Floor;
    ScaledBounds(a, b, a / b, q as real);
  }

  /** On a non-positive dividend the remainder is non-positive. */
  lemma RemNonPositive(a: real, b: real)
    requires a <= 0.0 && b > 0.0
    ensures -b < JsRem(a, b) <= 0.0
  {
    Quotient(a, b);
    var x := a / b;
    var q := (-x).Floor;
    assert b * -x == -a;
    ScaledBounds(-a, b, -x, q as real);
    assert JsRem(a, b) == -(-a - b * q as real);
  }

  /** The quotient has the sign of the dividend and multiplies back to it. */
  lemma Quotient(a: real, b: real)
    requires b > 0.0
    ensures b * (a / b) == a
    ensures a >= 0.0 ==> a / b >= 0.0
    ensures a <= 0.0 ==> a / b <= 0.0
  {
  }

  /** With `q` the integer part of `a / b`, what is left of `a` lies in `[0, b)`. */
  lemma ScaledBounds(a: real, b: real, x: real, q: real)
    requires b > 0.0 && b * x == a && q <= x < q + 1.0
    ensures 0.0 <= a - b * q < b
  {
    var d := x - q;
    ProductSigns(b, d);
    ProductBelow(b, d);
    Distribute(b, x, q);
    assert b * d == a - b * q;
  }

  lemma ProductBelow(b: real, d: real)
    requires b > 0.0 && d < 1.0
    ensures b * d < b
  {
    ProductSigns(b, 1.0 - d);
    Distribute(b, 1.0, d);
  }

  lemma Distribute(b: real, y: real, z: real)
    ensures b * (y - z) == b * y - b * z
  {
  }

  lemma ProductSigns(b: real, y: real)
    requires b > 0.0
    ensures y >= 0.0 ==> b * y >= 0.0
    ensures y > 0.0 ==> b * y > 0.0
  {
  }

  lemma FloorShift(k: int, x: real)
    ensures (k as real + x).Floor == k + x.Floor
  {
  }

  /**
   * For a non-negative amount the groups are digits of its integer part
   * in the Indian system: lakh and thousand below 100, remainder below
   * 1000, and together they make up `Math.floor(num)`.
   */
  lemma GroupsDecompose(num: real)
    requires num >= 0.0
    ensures var g := SplitGroups(num);
      g.crore >= 0 && 0 <= g.lakh < 100 && 0 <= g.thousand < 100 && 0 <= g.remainder < 1000 &&
      g.crore * 10000000 + g.lakh * 100000 + g.thousand * 1000 + g.remainder == num.Floor
  {
    var n1 := JsRem(num, 10000000.0);
    RemNonNegative(num, 10000000.0);
    var n2 := JsRem(n1, 100000.0);
    RemNonNegative(n1, 100000.0);
    var n3 := JsRem(n2, 1000.0);
    RemNonNegative(n2, 1000.0);
    var g := SplitGroups(num);
    var k := g.crore * 10000000 + g.lakh * 100000 + g.thousand * 1000;
    assert num == k as real + n3;
    FloorShift(k, n3);
  }

  /** A negative amount has no positive group. */
  lemma GroupsOfNegative(num: real)
    requires num < 0.0
    ensures var g := SplitGroups(num);
      g.crore <= 0 && g.lakh <= 0 && g.thousand <= 0 && g.remainder <= 0
  {
    var n1 := JsRem(num, 10000000.0);
    RemNonPositive(num, 10000000.0);
    var n2 := JsRem(n1, 100000.0);
    RemNonPositive(n1, 100000.0);
    RemNonPositive(n2, 1000.0);
  }

  // ---------------------------------------------------------------------
  // The whole phrase.

  /** A scale group: its words and the scale word, when the group is positive. */
  function ScaleWords(g: int, scale: NumberWord): seq<NumberWord> {
    if g > 0 then GroupWords(g) + [scale] else []
  }

  /** The tokens between "Indian Rupee" and "Only", group by group. */
  function PhraseWordsOf(g: Groups): seq<NumberWord> {
    ScaleWords(g.crore, Crore) + ScaleWords(g.lakh, Lakh) + ScaleWords(g.thousand, Thousand) +
    (if g.remainder > 0 then GroupWords(g.remainder) else [])
  }

  function PhraseWords(num: real): seq<NumberWord> {
    PhraseWordsOf(SplitGroups(num))
  }

  /** The text a positive group contributes, with the spaces the page puts around its scale word. */
  function ScaleText(g: int, scale: string): string {
    if g > 0 then GroupText(g) + scale else ""
  }

  /** The text the page assembles from the groups of a non-zero amount. */
  function PhraseOf(g: Groups): string {
    "Indian Rupee " + ScaleText(g.crore, " Crore ") + ScaleText(g.lakh, " Lakh ") +
    ScaleText(g.thousand, " Thousand ") + ScaleText(g.remainder, "") + " Only"
  }

  /** The phrase the page returns for a non-zero amount. */
  function Phrase(num: real): string {
    PhraseOf(SplitGroups(num))
  }

  /** The phrase starts and ends with a letter, so the final `trim()` leaves it as it is. */
  lemma PhraseTrimmed(g: Groups)
    ensures Trim(PhraseOf(g)) == PhraseOf(g)
  {
    var head := "Indian Rupee " + ScaleText(g.crore, " Crore ") + ScaleText(g.lakh, " Lakh ") +
      ScaleText(g.thousand, " Thousand ") + ScaleText(g.remainder, "");
    assert head[0] == 'I';
    TrimFramed(head, " Only");
  }

  /** The phrase opens with "Indian Rupee" and closes with "Only", whatever the groups. */
  lemma PhraseFramed(g: Groups)
    ensures var p := PhraseOf(g); |p| >= 18 && p[..12] == "Indian Rupee" && p[|p| - 4..] == "Only"
  {
    var p := PhraseOf(g);
    FramedBy("Indian Rupee ", ScaleText(g.crore, " Crore "), ScaleText(g.lakh, " Lakh "),
             ScaleText(g.thousand, " Thousand "), ScaleText(g.remainder, ""), " Only");
    HeadAndTail();
    assert p[..12] == p[..13][..12];
    assert p[|p| - 4..] == p[|p| - 5..][1..];
  }

  lemma FramedBy(a: string, c: string, l: string, t: string, r: string, b: string)
    ensures var p := a + c + l + t + r + b; |p| >= |a| + |b| && p[..|a|] == a && p[|p| - |b|..] == b
  {
    var p := a + c + l + t + r + b;
    assert p == a + (c + l + t + r) + b;
  }

  lemma HeadAndTail()
    ensures |"Indian Rupee "| == 13 && "Indian Rupee "[..12] == "Indian Rupee"
    ensures |" Only"| == 5 && " Only"[1..] == "Only"
  {
  }

  /** `numberToWords`. */
  method NumberToWords(num0: real) returns (s: string)
    ensures num0 == 0.0 ==> s == "Zero Only"
    ensures num0 != 0.0 ==> s == Phrase(num0)
  {
    if num0 == 0.0 {
      return "Zero Only";
    }
    ghost var g := SplitGroups(num0);
    var num := num0;
    var crore := (num / 10000000.0).Floor;
    num := JsRem(num, 10000000.0);
    var lakh := (num / 100000.0).Floor;
    num := JsRem(num, 100000.0);
    var thousand := (num / 1000.0).Floor;
    num := JsRem(num, 1000.0);
    var remainder := num.Floor;
    assert g == Groups(crore, lakh, thousand, remainder);

    var result := "Indian Rupee ";
    if crore > 0 {
      var c := ConvertLessThanOneThousand(crore);
      result := result + (c + " Crore ");
    }
    assert result == "Indian Rupee " + ScaleText(crore, " Crore ");
    if lakh > 0 {
      var c := ConvertLessThanOneThousand(lakh);
      result := result + (c + " Lakh ");
    }
    assert result == "Indian Rupee " + ScaleText(crore, " Crore ") + ScaleText(lakh, " Lakh ");
    if thousand > 0 {
      var c := ConvertLessThanOneThousand(thousand);
      result := result + (c + " Thousand ");
    }
    ghost var scales := "Indian Rupee " + ScaleText(crore, " Crore ") + ScaleText(lakh, " Lakh ") +
      ScaleText(thousand, " Thousand ");
    assert result == scales;
    if remainder > 0 {
      var c := ConvertLessThanOneThousand(remainder);
      result := result + c;
    }
    assert result == scales + ScaleText(remainder, "");
    result := result + " Only";
    PhraseTrimmed(g);
    s := Trim(result);
  }

  // ---------------------------------------------------------------------
  // What the phrase says.

  /** A positive scale group reads back as the group times its scale. */
  lemma ScaleRuns(g: int, scale: NumberWord, factor: int, total: int)
    requires g >= 0
    requires (scale == Crore && factor == 10000000) || (scale == Lakh && factor == 100000) ||
             (scale == Thousand && factor == 1000)
    ensures Run(ScaleWords(g, scale), Tally(total, 0)) == Tally(total + g * factor, 0)
  {
    if g > 0 {
      RunAppend(GroupWords(g), [scale], Tally(total, 0));
      GroupRuns(g, total);
      assert Run([scale], Tally(total, g)) == Run([], Step(Tally(total, g), scale));
    }
  }

  /** The tokens of a phrase read back as the sum of its groups at their scales. */
  lemma PhraseWordsValue(g: Groups)
    requires g.crore >= 0 && g.lakh >= 0 && g.thousand >= 0 && g.remainder >= 0
    ensures Value(PhraseWordsOf(g)) ==
      g.crore * 10000000 + g.lakh * 100000 + g.thousand * 1000 + g.remainder
  {
    var c, l, t := ScaleWords(g.crore, Crore), ScaleWords(g.lakh, Lakh), ScaleWords(g.thousand, Thousand);
    var r := if g.remainder > 0 then GroupWords(g.remainder) else [];
    RunAppend(c + l + t, r, Tally(0, 0));
    RunAppend(c + l, t, Tally(0, 0));
    RunAppend(c, l, Tally(0, 0));
    ScaleRuns(g.crore, Crore, 10000000, 0);
    var t1 := g.crore * 10000000;
    ScaleRuns(g.lakh, Lakh, 100000, t1);
    var t2 := t1 + g.lakh * 100000;
    ScaleRuns(g.thousand, Thousand, 1000, t2);
    var t3 := t2 + g.thousand * 1000;
    assert Run(c + l + t, Tally(0, 0)) == Tally(t3, 0);
    if g.remainder > 0 {
      GroupRuns(g.remainder, t3);
    } else {
      assert Run(r, Tally(t3, 0)) == Tally(t3, 0);
    }
    assert Run(PhraseWordsOf(g), Tally(0, 0)) == Run(r, Tally(t3, 0));
  }

  /**
   * Round trip: for every non-negative amount, the words between
   * "Indian Rupee" and "Only" denote the whole number of rupees in it.
   */
  lemma PhraseDenotesAmount(num: real)
    requires num >= 0.0
    ensures Value(PhraseWords(num)) == num.Floor
  {
    GroupsDecompose(num);
    PhraseWordsValue(SplitGroups(num));
  }

  /** Below 2000 crore every token indexes inside its table, so no `undefined` is printed. */
  lemma PhraseInTables(num: real)
    requires 0.0 <= num < 20000000000.0
    ensures AllInTables(PhraseWords(num))
  {
    GroupsDecompose(num);
    var g := SplitGroups(num);
    assert g.crore < 2000;
    ScaleInTables(g.crore, Crore);
    ScaleInTables(g.lakh, Lakh);
    ScaleInTables(g.thousand, Thousand);
    GroupWordsPrintable(g.remainder);
    var c, l, t := ScaleWords(g.crore, Crore), ScaleWords(g.lakh, Lakh), ScaleWords(g.thousand, Thousand);
    var r := if g.remainder > 0 then GroupWords(g.remainder) else [];
    InTablesAppend(c, l);
    InTablesAppend(c + l, t);
    InTablesAppend(c + l + t, r);
  }

  predicate AllInTables(ws: seq<NumberWord>) {
    forall i :: 0 <= i < |ws| ==> InTables(ws[i])
  }

  lemma InTablesAppend(a: seq<NumberWord>, b: seq<NumberWord>)
    requires AllInTables(a) && AllInTables(b)
    ensures AllInTables(a + b)
  {
    forall i | 0 <= i < |a + b| ensures InTables((a + b)[i]) {
      if i >= |a| {
        assert (a + b)[i] == b[i - |a|];
      }
    }
  }

  lemma ScaleInTables(g: int, scale: NumberWord)
    requires g < 2000 && (scale == Crore || scale == Lakh || scale == Thousand)
    ensures AllInTables(ScaleWords(g, scale))
  {
    if g > 0 {
      GroupWordsPrintable(g);
      InTablesAppend(GroupWords(g), [scale]);
    }
  }

  /** From 2000 crore on, the first word indexes past the `ones` table and prints `undefined`. */
  lemma HugeAmountPrintsUndefined(num: real)
    requires num >= 20000000000.0
    ensures PhraseWords(num) != [] && Spell(PhraseWords(num)[0]) == "undefined"
  {
    GroupsDecompose(num);
    var g := SplitGroups(num);
    assert g.crore >= 2000 by {
      assert num / 10000000.0 >= 2000.0;
    }
    assert PhraseWords(num)[0] == Unit(g.crore / 100);
  }

  /** The phrase's words: "Indian", "Rupee", the spelled tokens, "Only". */
  lemma PhraseWordsSpelled(g: Groups)
    ensures Words(PhraseOf(g)) == ["Indian", "Rupee"] + SpellAll(PhraseWordsOf(g)) + ["Only"]
  {
    var cw, lw, tw := ScaleWords(g.crore, Crore), ScaleWords(g.lakh, Lakh), ScaleWords(g.thousand, Thousand);
    var rw := if g.remainder > 0 then GroupWords(g.remainder) else [];
    PhrasePartsWords(g);
    SpellAllAppend(cw + lw + tw, rw);
    SpellAllAppend(cw + lw, tw);
    SpellAllAppend(cw, lw);
    Regroup(["Indian", "Rupee"], SpellAll(cw), SpellAll(lw), SpellAll(tw), SpellAll(rw), ["Only"]);
  }

  /** The words of the phrase, part by part. */
  lemma PhrasePartsWords(g: Groups)
    ensures Words(PhraseOf(g)) == ["Indian", "Rupee"] + (SpellAll(ScaleWords(g.crore, Crore)) +
      (SpellAll(ScaleWords(g.lakh, Lakh)) + (SpellAll(ScaleWords(g.thousand, Thousand)) +
      (SpellAll(if g.remainder > 0 then GroupWords(g.remainder) else []) + ["Only"]))))
  {
    var c := ScaleText(g.crore, " Crore ");
    var l := ScaleText(g.lakh, " Lakh ");
    var t := ScaleText(g.thousand, " Thousand ");
    var r := ScaleText(g.remainder, "");
    CroreWords(g.crore);
    LakhWords(g.lakh);
    ThousandWords(g.thousand);
    HeaderWords();
    RemainderWords(g.remainder);
    assert PhraseOf(g) == "Indian Rupee " + c + l + t + (r + " Only");
    WordsOfParts("Indian Rupee ", c, l, t, r + " Only");
  }

  lemma CroreWords(g: int)
    ensures EndsInSpace(ScaleText(g, " Crore ")) && Words(ScaleText(g, " Crore ")) == SpellAll(ScaleWords(g, Crore))
  {
    ScaleTextWords(g, Crore, " Crore ");
  }

  lemma LakhWords(g: int)
    ensures EndsInSpace(ScaleText(g, " Lakh ")) && Words(ScaleText(g, " Lakh ")) == SpellAll(ScaleWords(g, Lakh))
  {
    ScaleTextWords(g, Lakh, " Lakh ");
  }

  lemma ThousandWords(g: int)
    ensures EndsInSpace(ScaleText(g, " Thousand ")) && Words(ScaleText(g, " Thousand ")) == SpellAll(ScaleWords(g, Thousand))
  {
    ScaleTextWords(g, Thousand, " Thousand ");
  }

  lemma Regroup<T>(a: seq<T>, b: seq<T>, c: seq<T>, d: seq<T>, e: seq<T>, f: seq<T>)
    ensures a + (b + (c + (d + (e + f)))) == a + (b + c + d + e) + f
  {
  }

  lemma HeaderWords()
    ensures EndsInSpace("Indian Rupee ") && Words("Indian Rupee ") == ["Indian", "Rupee"]
  {
    assert IsWord("Indian") && IsWord("Rupee");
    assert "Indian Rupee " == "Indian" + " " + ("Rupee" + " ");
    WordThenSpace("Indian");
    WordThenSpace("Rupee");
    WordsAppend("Indian" + " ", "Rupee" + " ");
  }

  /** A group followed by a scale word between spaces reads as the group's words and the scale word. */
  lemma GroupThenScale(g: nat, name: string)
    requires g > 0 && IsWord(name)
    ensures Words(GroupText(g) + (" " + name + " ")) == SpellAll(GroupWords(g)) + [name]
  {
    var ws := SpellAll(GroupWords(g));
    GroupWordsPrintable(g);
    SpellAllWords(GroupWords(g));
    SpacedIsJoinedPlusSpace(ws);
    SpacedAppend(ws, [name]);
    assert Spaced([name]) == name + " " + Spaced([]);
    assert GroupText(g) + (" " + name + " ") == Spaced(ws + [name]);
    assert AllWords(ws + [name]);
    WordsOfSpaced(ws + [name]);
  }

  /** A scale group's text ends in a space and reads as the group's words and the scale word. */
  lemma ScaleTextWords(g: int, scale: NumberWord, suffix: string)
    requires scale == Crore || scale == Lakh || scale == Thousand
    requires suffix == " " + Spell(scale) + " "
    ensures EndsInSpace(ScaleText(g, suffix)) && Words(ScaleText(g, suffix)) == SpellAll(ScaleWords(g, scale))
  {
    if g > 0 {
      SpellIsWord(scale);
      GroupThenScale(g, Spell(scale));
      SpellAllAppend(GroupWords(g), [scale]);
    }
  }

  /** The remainder's text followed by " Only" reads as the remainder's words and "Only". */
  lemma RemainderWords(rem: int)
    ensures var r := ScaleText(rem, "");
      Words(r + " Only") == SpellAll(if rem > 0 then GroupWords(rem) else []) + ["Only"]
  {
    var r := ScaleText(rem, "");
    assert IsWord("Only");
    SingleWord("Only");
    if rem > 0 {
      var ws := SpellAll(GroupWords(rem));
      GroupWordsPrintable(rem);
      SpellAllWords(GroupWords(rem));
      SpacedIsJoinedPlusSpace(ws);
      WordsOfSpaced(ws);
      assert r + " Only" == Spaced(ws) + "Only";
      WordsAppend(Spaced(ws), "Only");
    } else {
      assert r + " Only" == " " + "Only";
      WordsAppend(" ", "Only");
    }
  }

  // ---------------------------------------------------------------------
  // Edge cases of the phrase.

  /** No positive group: the phrase is the frame alone, with two spaces inside. */
  lemma NoGroupsPhrase(g: Groups)
    requires g.crore <= 0 && g.lakh <= 0 && g.thousand <= 0 && g.remainder <= 0
    ensures PhraseOf(g) == "Indian Rupee  Only"
  {
    assert PhraseOf(g) == "Indian Rupee " + "" + "" + "" + "" + " Only";
  }

  /** A non-zero amount below one rupee, or any negative amount, prints no number at all. */
  lemma BelowOneRupeePhrase(num: real)
    requires num != 0.0 && num < 1.0
    ensures Phrase(num) == "Indian Rupee  Only"
  {
    var g := SplitGroups(num);
    if num < 0.0 {
      GroupsOfNegative(num);
    } else {
      GroupsDecompose(num);
      assert num.Floor == 0;
    }
    NoGroupsPhrase(g);
  }

  /** The scale groups of a phrase: everything before the remainder. */
  function ScalesText(g: Groups): string {
    "Indian Rupee " + ScaleText(g.crore, " Crore ") + ScaleText(g.lakh, " Lakh ") +
    ScaleText(g.thousand, " Thousand ")
  }

  lemma ScalesTextEndsInSpace(g: Groups)
    ensures ScalesText(g) != [] && ScalesText(g)[|ScalesText(g)| - 1] == ' '
  {
    var c := ScaleText(g.crore, " Crore ");
    var l := ScaleText(g.lakh, " Lakh ");
    var t := ScaleText(g.thousand, " Thousand ");
    LastIsSpace("Indian Rupee ", c);
    LastIsSpace("Indian Rupee " + c, l);
    LastIsSpace("Indian Rupee " + c + l, t);
  }

  /** Appending nothing, or a text that ends in `' '`, keeps `' '` as the last character. */
  lemma LastIsSpace(a: string, b: string)
    requires a != [] && a[|a| - 1] == ' '
    requires b == [] || b[|b| - 1] == ' '
    ensures a + b != [] && (a + b)[|a + b| - 1] == ' '
  {
    if b == [] {
      assert a + b == a;
    } else {
      assert (a + b)[|a + b| - 1] == b[|b| - 1];
    }
  }

  /** With no remainder below a thousand, two spaces come before "Only". */
  lemma DoubleSpaceBeforeOnly(g: Groups)
    requires g.remainder <= 0
    ensures var p := PhraseOf(g); |p| >= 6 && p[|p| - 6..] == "  Only"
  {
    ScalesTextEndsInSpace(g);
    PhraseWithoutRemainder(g);
    DoubleSpaceAfter(ScalesText(g));
  }

  lemma PhraseWithoutRemainder(g: Groups)
    requires g.remainder <= 0
    ensures PhraseOf(g) == ScalesText(g) + " Only"
  {
  }

  lemma DoubleSpaceAfter(head: string)
    requires head != [] && head[|head| - 1] == ' '
    ensures var p := head + " Only"; |p| >= 6 && p[|p| - 6..] == "  Only"
  {
    SpaceBefore(head, " Only");
    assert " " + " Only" == "  Only";
  }

  /** The tokens for 12,34,56,789 rupees: twelve crore, thirty-four lakh, fifty-six thousand, 789. */
  lemma PhraseWordsExample()
    ensures PhraseWords(123456789.0) == [Unit(12), Crore, Ten(3), Unit(4), Lakh, Ten(5), Unit(6), Thousand,
      Unit(7), Hundred, Ten(8), Unit(9)]
  {
    GroupsDecompose(123456789.0);
    var g := SplitGroups(123456789.0);
    assert g == Groups(12, 34, 56, 789);
  }
}
