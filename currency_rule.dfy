/** The cart rule that holds when the shop context's currency is one of a configured list. */
module CurrencyRules {

  /** A PHP array element as `in_array` with strict comparison sees it: an integer and a
      string are never identical, even when they print alike. */
  datatype Scalar = IntId(i: int) | StringId(s: string)

  datatype Currency = Currency(uuid: string)

  /** The part of the shop context the rule reads. */
  datatype ShopContext = ShopContext(currency: Currency)

  /** A rule's verdict and the messages it reports. */
  datatype RuleMatch = RuleMatch(matches: bool, messages: seq<string>)

  /** The rule as constructed: it keeps the given list of ids as it is. */
  datatype CurrencyRule = CurrencyRule(currencyIds: seq<Scalar>)

  const NotMatchedMessage := "Currency not matched"

  /** `in_array($needle, $haystack, true)`: scans the list for an identical element. */
  function InArrayStrict(needle: Scalar, haystack: seq<Scalar>): (r: bool)
    ensures r <==> needle in haystack
  {
    if |haystack| == 0 then false
    else haystack[0] == needle || InArrayStrict(needle, haystack[1..])
  }

  /** match: whether the context currency's uuid is one of the ids, with the fixed message. */
  function Match(rule: CurrencyRule, context: ShopContext): (r: RuleMatch)
    ensures r.matches <==> StringId(context.currency.uuid) in rule.currencyIds
    ensures r.messages == [NotMatchedMessage]
  {
    RuleMatch(InArrayStrict(StringId(context.currency.uuid), rule.currencyIds), [NotMatchedMessage])
  }

  /** A rule over no ids never matches. */
  lemma EmptyNeverMatches(context: ShopContext)
    ensures !Match(CurrencyRule([]), context).matches
  {
  }

  /** Only which ids occur matters: reordering or repeating entries leaves every verdict alone. */
  lemma OnlyMembershipMatters(a: seq<Scalar>, b: seq<Scalar>, context: ShopContext)
    requires forall x :: x in a <==> x in b
    ensures Match(CurrencyRule(a), context) == Match(CurrencyRule(b), context)
  {
    assert StringId(context.currency.uuid) in a <==> StringId(context.currency.uuid) in b;
  }

  /** The comparison is strict: a list of integer ids matches no currency, whatever its uuid. */
  lemma IntegerIdsNeverMatch(ids: seq<int>, context: ShopContext)
    ensures !Match(CurrencyRule(seq(|ids|, k requires 0 <= k < |ids| => IntId(ids[k]))), context).matches
  {
  }

  /** Adding an id never turns a match into a mismatch, and adding the context's own uuid
      always yields a match. */
  lemma AddingIdKeepsMatch(ids: seq<Scalar>, id: Scalar, context: ShopContext)
    ensures Match(CurrencyRule(ids), context).matches ==> Match(CurrencyRule(ids + [id]), context).matches
    ensures id == StringId(context.currency.uuid) ==> Match(CurrencyRule(ids + [id]), context).matches
  {
    assert (ids + [id])[|ids|] == id;
    if StringId(context.currency.uuid) in ids {
      var k :| 0 <= k < |ids| && ids[k] == StringId(context.currency.uuid);
      assert (ids + [id])[k] == ids[k];
    }
  }
}
