/**
 * The deterministic parts of `find_optimal_shop` in the Flask ledger: the language model's
 * reply is an input (`reply`, plus `decoded`, what `json.loads` and the `int(...)` casts make
 * of its braced span); the module models the choice between the JSON reading, the line-by-line
 * reading and the fallback recommendation computed from the first shop's price list.
 */
module ShopMatching {
  import opened Wrappers
  import opened Text

  /** An entry of `shops_db`: its id, name and price per kg of each item (rating and distance are not used by any rule). */
  datatype Shop = Shop(id: string, name: string, prices: map<string, int>)

  const Shops: seq<Shop> := [
    Shop("shop1", "Fresh Mart", map["rice" := 50, "wheat_flour" := 40, "dal" := 120]),
    Shop("shop2", "Daily Needs", map["rice" := 55, "wheat_flour" := 35, "dal" := 110]),
    Shop("shop3", "Green Grocers", map["rice" := 48, "wheat_flour" := 42, "dal" := 115])
  ]

  /** The recommendation dictionary; a key the reply did not provide is `None`. */
  datatype ShopMatch = ShopMatch(
    recommendedShop: Option<string>,
    pricePerUnit: Option<int>,
    quantityPossible: Option<int>,
    reasoning: Option<string>)

  /** What `json.loads` and the `int(...)` casts yield for the braced span, or that one of them raised. */
  datatype JsonDecode = Decoded(result: ShopMatch) | DecodeFailed

  /** `shop['items'].get(item, default)`. */
  function PriceOr(shop: Shop, item: string, default: int): int {
    if item in shop.prices then shop.prices[item] else default
  }

  /** The divisor of the fallback: the first shop's price, or 1 when it does not sell the item. */
  function FallbackDivisor(item: string): (d: int)
    ensures d > 0
    ensures item !in Shops[0].prices ==> d == 1
  {
    PriceOr(Shops[0], item, 1)
  }

  /**
   * The recommendation returned when parsing the reply raised: every key is present, the
   * first shop ("Fresh Mart") is named with its price for the item (0 when it lacks it), and
   * the quantity is the largest whole number of kilograms the budget buys at that price (at
   * price 1 when the shop lacks the item).
   */
  function Fallback(item: string, budget: int): (m: ShopMatch)
    ensures m.recommendedShop == Some("Fresh Mart") && m.reasoning.Some?
    ensures m.pricePerUnit == Some(if item in Shops[0].prices then Shops[0].prices[item] else 0)
    ensures m.quantityPossible.Some?
    ensures var q, p := m.quantityPossible.value, FallbackDivisor(item);
            q * p <= budget < (q + 1) * p
  {
    var p := FallbackDivisor(item);
    var q := budget / p;  // Python's `//`: the divisor is positive, so Euclidean and floor division agree
    assert budget == q * p + budget % p;
    ShopMatch(Some(Shops[0].name), Some(PriceOr(Shops[0], item, 0)), Some(q), Some("Based on available data and budget."))
  }

  /** For an item the first shop does not sell, the fallback reports price 0 and a quantity equal to the whole budget. */
  lemma FallbackForUnknownItem(item: string, budget: int)
    requires item !in Shops[0].prices
    ensures Fallback(item, budget).pricePerUnit == Some(0)
    ensures Fallback(item, budget).quantityPossible == Some(budget)
  {
  }

  /** `re.search(r'({.*})', reply, re.DOTALL)` succeeds: some `{` comes before some `}`. */
  predicate HasBracedSpan(reply: string) {
    exists i, j :: 0 <= i < j < |reply| && reply[i] == '{' && reply[j] == '}'
  }

  /**
   * The leftmost match starts at the first `{`: the search succeeds exactly when a `}`
   * follows the first `{` of the reply.
   */
  lemma BracedSpanAfterFirstBrace(reply: string)
    ensures HasBracedSpan(reply) <==>
              FirstIndex(reply, '{').Some? && '}' in reply[FirstIndex(reply, '{').value + 1..]
  {
    if HasBracedSpan(reply) {
      var i, j :| 0 <= i < j < |reply| && reply[i] == '{' && reply[j] == '}';
      var f := FirstIndex(reply, '{');
      assert reply[i] in reply;
      assert reply[f.value + 1..][j - f.value - 1] == '}';
    }
    if FirstIndex(reply, '{').Some? && '}' in reply[FirstIndex(reply, '{').value + 1..] {
      var f := FirstIndex(reply, '{').value;
      var rest := reply[f + 1..];
      var j :| 0 <= j < |rest| && rest[j] == '}';
      assert reply[f + 1 + j] == '}';
    }
  }

  /** The keys the line-by-line reading looks for. */
  datatype Field = ShopField | PriceField | QuantityField | ReasoningField

  /** The key each branch of the chain looks for. */
  function Key(f: Field): string {
    match f
    case ShopField => "recommended_shop"
    case PriceField => "price_per_unit"
    case QuantityField => "quantity_possible"
    case ReasoningField => "reasoning"
  }

  /** The position of each branch in the chain. */
  function Rank(f: Field): nat {
    match f
    case ShopField => 0
    case PriceField => 1
    case QuantityField => 2
    case ReasoningField => 3
  }

  /**
   * The branch of the `if`/`elif` chain a line takes: the first key, in chain order, that
   * its lower-cased text contains; none when it contains no key.
   */
  function Classify(line: string): Option<Field> {
    var low := Lower(line);
    if Contains(low, "recommended_shop") then Some(ShopField)
    else if Contains(low, "price_per_unit") then Some(PriceField)
    else if Contains(low, "quantity_possible") then Some(QuantityField)
    else if Contains(low, "reasoning") then Some(ReasoningField)
    else None
  }

  /**
   * The chain takes the first branch, in chain order, whose key the lower-cased line
   * contains, and takes none when it contains no key.
   */
  lemma ClassifyTakesFirstKey(line: string)
    ensures Classify(line).Some? ==> Contains(Lower(line), Key(Classify(line).value))
    ensures Classify(line).Some? ==>
              forall g :: Rank(g) < Rank(Classify(line).value) ==> !Contains(Lower(line), Key(g))
    ensures Classify(line).None? <==> forall g :: !Contains(Lower(line), Key(g))
  {
  }

  /** `line.split(":", 1)[1]`: what follows the first colon; `None` where the indexing raises. */
  function AfterColon(line: string): (r: Option<string>)
    ensures r.Some? <==> ':' in line
  {
    match FirstIndex(line, ':')
    case None => None
    case Some(i) => Some(line[i + 1..])
  }

  /**
   * `.strip().strip('"')`: the value keeps one slice of `v`; what lies around it is Python
   * white space or double quotes, and the slice neither starts nor ends with a quote.
   */
  function Clean(v: string): (r: string)
    ensures r == [] || (r[0] != '"' && r[|r| - 1] != '"')
    ensures exists i :: OccursAt(v, r, i)
              && (forall k :: 0 <= k < i ==> IsPySpace(v[k]) || v[k] == '"')
              && (forall k :: i + |r| <= k < |v| ==> IsPySpace(v[k]) || v[k] == '"')
  {
    var quote := (c: char) => c == '"';
    StripTwiceSlice(v, IsPySpace, quote);
    StripSlice(Strip(v, IsPySpace), quote);
    Strip(Strip(v, IsPySpace), quote)
  }

  /** The value of a text key (`recommended_shop`, `reasoning`). */
  function TextValue(line: string): Option<string> {
    match AfterColon(line)
    case None => None
    case Some(v) => Some(Clean(v))
  }

  /** The value of a numeric key: the digits after the first colon; `None` where `int('')` raises. */
  function NumberValue(line: string): (r: Option<int>)
    ensures r.Some? ==> r.value >= 0
  {
    match AfterColon(line)
    case None => None
    case Some(v) =>
      var ds := DigitsOf(Clean(v));
      if ds == [] then None else Some(DecimalValue(ds))
  }

  function IsTextField(f: Field): bool {
    f == ShopField || f == ReasoningField
  }

  /** The line takes a branch whose extraction raises. */
  predicate LineFails(line: string) {
    match Classify(line)
    case None => false
    case Some(f) => if IsTextField(f) then TextValue(line).None? else NumberValue(line).None?
  }

  /** The position of the last line that takes the branch of `f`. */
  function LastLineOf(lines: seq<string>, f: Field): (r: Option<nat>)
    ensures r.Some? ==> r.value < |lines| && Classify(lines[r.value]) == Some(f)
    ensures r.Some? ==> forall j :: r.value < j < |lines| ==> Classify(lines[j]) != Some(f)
    ensures r.None? ==> forall j :: 0 <= j < |lines| ==> Classify(lines[j]) != Some(f)
  {
    if lines == [] then None
    else if Classify(lines[|lines| - 1]) == Some(f) then Some(|lines| - 1)
    else LastLineOf(lines[..|lines| - 1], f)
  }

  function TextAt(lines: seq<string>, f: Field): Option<string> {
    match LastLineOf(lines, f)
    case None => None
    case Some(i) => TextValue(lines[i])
  }

  function NumberAt(lines: seq<string>, f: Field): Option<int> {
    match LastLineOf(lines, f)
    case None => None
    case Some(i) => NumberValue(lines[i])
  }

  /** The keys read from `lines` when none of them raises. */
  function Reading(lines: seq<string>): ShopMatch {
    ShopMatch(TextAt(lines, ShopField), NumberAt(lines, PriceField),
              NumberAt(lines, QuantityField), TextAt(lines, ReasoningField))
  }

  /**
   * What the line-by-line reading yields, stated without the loop: `None` (the handler's
   * fallback is taken) when some line's extraction raises; otherwise each key holds the value
   * of the LAST line that took its branch, and keys no line took stay absent.
   */
  function ParsedLines(lines: seq<string>): (r: Option<ShopMatch>)
    ensures r.Some? && r.value.quantityPossible.Some? ==> r.value.quantityPossible.value >= 0
    ensures r.Some? && r.value.pricePerUnit.Some? ==> r.value.pricePerUnit.value >= 0
    ensures r.None? <==> exists i :: 0 <= i < |lines| && LineFails(lines[i])
  {
    if exists i :: 0 <= i < |lines| && LineFails(lines[i]) then None
    else Some(Reading(lines))
  }

  /**
   * A further line that takes the `quantity_possible` branch replaces the quantity read so
   * far and leaves the other keys as they were.
   */
  lemma {:induction false} LaterQuantityLineOverwrites(lines: seq<string>, line: string)
    requires Classify(line) == Some(QuantityField)
    requires ParsedLines(lines + [line]).Some?
    ensures ParsedLines(lines).Some?
    ensures ParsedLines(lines + [line]).value.quantityPossible == NumberValue(line)
    ensures ParsedLines(lines + [line]).value.recommendedShop == ParsedLines(lines).value.recommendedShop
    ensures ParsedLines(lines + [line]).value.pricePerUnit == ParsedLines(lines).value.pricePerUnit
    ensures ParsedLines(lines + [line]).value.reasoning == ParsedLines(lines).value.reasoning
  {
    var all, k := lines + [line], |lines|;
    assert all[..k] == lines;
    assert all[..k + 1] == all;
    LastLineStep(all, k, ShopField);
    LastLineStep(all, k, PriceField);
    LastLineStep(all, k, QuantityField);
    LastLineStep(all, k, ReasoningField);
    forall i | 0 <= i < |lines| ensures !LineFails(lines[i]) {
      assert lines[i] == all[i];
    }
  }

  /**
   * One pass of the loop body: it raises exactly when the line fails; otherwise the key of
   * the branch the line takes receives the line's value and every other key is kept.
   */
  function ReadLine(result: ShopMatch, line: string): (r: Option<ShopMatch>)
    ensures r.None? <==> LineFails(line)
    ensures r.Some? ==> r.value.recommendedShop ==
                          if Classify(line) == Some(ShopField) then TextValue(line) else result.recommendedShop
    ensures r.Some? ==> r.value.pricePerUnit ==
                          if Classify(line) == Some(PriceField) then NumberValue(line) else result.pricePerUnit
    ensures r.Some? ==> r.value.quantityPossible ==
                          if Classify(line) == Some(QuantityField) then NumberValue(line) else result.quantityPossible
    ensures r.Some? ==> r.value.reasoning ==
                          if Classify(line) == Some(ReasoningField) then TextValue(line) else result.reasoning
  {
    match Classify(line)
    case None => Some(result)
    case Some(ShopField) =>
      (match TextValue(line) case None => None case Some(v) => Some(result.(recommendedShop := Some(v))))
    case Some(PriceField) =>
      (match NumberValue(line) case None => None case Some(v) => Some(result.(pricePerUnit := Some(v))))
    case Some(QuantityField) =>
      (match NumberValue(line) case None => None case Some(v) => Some(result.(quantityPossible := Some(v))))
    case Some(ReasoningField) =>
      (match TextValue(line) case None => None case Some(v) => Some(result.(reasoning := Some(v))))
  }

  /** Reading one more line raises exactly when that line fails, and otherwise extends the reading. */
  lemma OneMoreLine(lines: seq<string>, k: nat)
    requires k < |lines|
    ensures ReadLine(Reading(lines[..k]), lines[k]).None? <==> LineFails(lines[k])
    ensures ReadLine(Reading(lines[..k]), lines[k]).Some? ==>
              ReadLine(Reading(lines[..k]), lines[k]).value == Reading(lines[..k + 1])
  {
    LastLineStep(lines, k, ShopField);
    LastLineStep(lines, k, PriceField);
    LastLineStep(lines, k, QuantityField);
    LastLineStep(lines, k, ReasoningField);
    var line := lines[k];
    var before := Reading(lines[..k]);
    match Classify(line)
    case None =>
    case Some(ShopField) =>
    case Some(PriceField) =>
    case Some(QuantityField) =>
    case Some(ReasoningField) =>
  }

  lemma LastLineStep(lines: seq<string>, k: nat, f: Field)
    requires k < |lines|
    ensures LastLineOf(lines[..k + 1], f) == if Classify(lines[k]) == Some(f) then Some(k) else LastLineOf(lines[..k], f)
  {
    assert lines[..k + 1][..k] == lines[..k];
  }

  /** The `for line in lines` loop filling the `result` dictionary. */
  method ManualParse(lines: seq<string>) returns (r: Option<ShopMatch>)
    ensures r == ParsedLines(lines)
  {
    var result := ShopMatch(None, None, None, None);
    assert result == Reading(lines[..0]);
    var k := 0;
    while k < |lines|
      invariant 0 <= k <= |lines|
      invariant forall i :: 0 <= i < k ==> !LineFails(lines[i])
      invariant result == Reading(lines[..k])
    {
      OneMoreLine(lines, k);
      var next := ReadLine(result, lines[k]);
      if next.None? {
        return None;
      }
      result := next.value;
      k := k + 1;
    }
    assert lines[..k] == lines;
    r := Some(result);
  }

  /**
   * `find_optimal_shop` as a value: the JSON reading when the reply has a braced span and it
   * decodes, the line-by-line reading when it has none and no line raises, the fallback otherwise.
   */
  function MatchShop(item: string, budget: int, reply: string, decoded: JsonDecode): (m: ShopMatch)
    ensures HasBracedSpan(reply) && decoded.Decoded? ==> m == decoded.result
    ensures HasBracedSpan(reply) && decoded.DecodeFailed? ==> m == Fallback(item, budget)
    ensures !HasBracedSpan(reply) && ParsedLines(Split(reply, '\n')).Some? ==> m == ParsedLines(Split(reply, '\n')).value
    ensures !HasBracedSpan(reply) && ParsedLines(Split(reply, '\n')).None? ==> m == Fallback(item, budget)
    ensures m.quantityPossible.None? ==>
              (HasBracedSpan(reply) && decoded.Decoded? && decoded.result.quantityPossible.None?)
              || (!HasBracedSpan(reply)
                  && forall k :: 0 <= k < |Split(reply, '\n')| ==> Classify(Split(reply, '\n')[k]) != Some(QuantityField))
  {
    if HasBracedSpan(reply) then
      match decoded
      case Decoded(j) => j
      case DecodeFailed => Fallback(item, budget)
    else
      match ParsedLines(Split(reply, '\n'))
      case Some(p) => p
      case None => Fallback(item, budget)
  }

  /** The matcher itself: the same choice, with the line-by-line reading done by the loop. */
  method FindOptimalShop(item: string, budget: int, reply: string, decoded: JsonDecode) returns (m: ShopMatch)
    ensures m == MatchShop(item, budget, reply, decoded)
  {
    if HasBracedSpan(reply) {
      match decoded
      case Decoded(j) => m := j;
      case DecodeFailed => m := Fallback(item, budget);
    } else {
      var parsed := ManualParse(Split(reply, '\n'));
      match parsed
      case Some(p) => m := p;
      case None => m := Fallback(item, budget);
    }
  }
}
