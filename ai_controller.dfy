/**
 * `POST /api/ai/parse`: a spoken sentence is handed to a list of language models in turn;
 * the first record one of them returns is sent back with its `transaction_type` folded to
 * "selling", "buying" or "payment". The model call together with `JSON.parse` is the
 * oracle `llm`, which yields a record or fails.
 */
module AiController {
  import opened Wrappers
  import opened Text

  const Models: seq<string> := ["llama-3.1-8b-instant", "llama-3.3-70b-versatile"]

  const SellWords: seq<string> := ["sell", "sale", "vit", "supply", "deliver"]
  const BuyWords: seq<string> := ["buy", "purchas", "vaangi", "vanginen", "order"]
  const PayWords: seq<string> := ["pay", "receipt", "collect", "kuduth", "settl"]

  /** The record a model returns; `transactionType` is `None` when the key is missing. */
  datatype Parsed = Parsed(transactionType: Option<string>, partyName: string, itemName: Option<string>,
                           quantity: Option<real>, amount: real, paymentMethod: Option<string>)

  /** 400 for a bad sentence, 500 when every model failed, else the normalised record. */
  datatype Reply = BadRequest | Failed | Answer(parsed: Parsed)

  /** The normalised `transaction_type`: the first word family that occurs in the lowercased type wins. */
  function NormalizeType(t: Option<string>): (r: Option<string>)
    ensures var tt := ToLower(if t.Some? then t.value else "");
      && (ContainsAny(tt, SellWords) ==> r == Some("selling"))
      && (!ContainsAny(tt, SellWords) && ContainsAny(tt, BuyWords) ==> r == Some("buying"))
      && (!ContainsAny(tt, SellWords) && !ContainsAny(tt, BuyWords) && ContainsAny(tt, PayWords) ==> r == Some("payment"))
      && (!ContainsAny(tt, SellWords) && !ContainsAny(tt, BuyWords) && !ContainsAny(tt, PayWords) ==> r == t)
  {
    var tt := ToLower(if t.Some? then t.value else "");
    if ContainsAny(tt, SellWords) then Some("selling")
    else if ContainsAny(tt, BuyWords) then Some("buying")
    else if ContainsAny(tt, PayWords) then Some("payment")
    else t
  }

  /**
   * The record sent back: only `transaction_type` may change, to one of the three canonical
   * values or not at all, and what comes out is already normalised.
   */
  function Normalize(p: Parsed): (r: Parsed)
    ensures r.partyName == p.partyName && r.itemName == p.itemName && r.quantity == p.quantity
    ensures r.amount == p.amount && r.paymentMethod == p.paymentMethod
    ensures r.transactionType in [Some("selling"), Some("buying"), Some("payment"), p.transactionType]
    ensures NormalizeType(r.transactionType) == r.transactionType
  {
    NormalizeTypeIdempotent(p.transactionType);
    p.(transactionType := NormalizeType(p.transactionType))
  }

  /** A pattern holding a character that `s` lacks does not occur in `s`. */
  lemma MissingCharNotContained(s: string, t: string, c: char)
    requires c in t && c !in s
    ensures !Contains(s, t)
  {
    var k :| 0 <= k < |t| && t[k] == c;
    forall i | 0 <= i && i + |t| <= |s|
      ensures !OccursAt(s, t, i)
    {
      assert s[i..i + |t|][k] == s[i + k];
    }
    ContainsMeansOccurs(s, t);
  }

  /** None of the five `pats` occurs in `s` when each holds the matching character of `cs`, which `s` lacks. */
  lemma MissingChars(s: string, pats: seq<string>, cs: string)
    requires |cs| == |pats| == 5
    requires cs[0] in pats[0] && cs[1] in pats[1] && cs[2] in pats[2] && cs[3] in pats[3] && cs[4] in pats[4]
    requires cs[0] !in s && cs[1] !in s && cs[2] !in s && cs[3] !in s && cs[4] !in s
    ensures !ContainsAny(s, pats)
  {
    MissingCharNotContained(s, pats[0], cs[0]);
    MissingCharNotContained(s, pats[1], cs[1]);
    MissingCharNotContained(s, pats[2], cs[2]);
    MissingCharNotContained(s, pats[3], cs[3]);
    MissingCharNotContained(s, pats[4], cs[4]);
  }

  /** A lower-case type that holds no word of any family is left as it is. */
  lemma Unmatched(t: string)
    requires NoUpper(t)
    requires !ContainsAny(t, SellWords) && !ContainsAny(t, BuyWords) && !ContainsAny(t, PayWords)
    ensures NormalizeType(Some(t)) == Some(t)
  {
    LowerUnchanged(t);
  }

  /** A lower-case type holding a word of a family, and no word of the earlier families, is folded to that family. */
  lemma SellMatched(t: string, k: nat)
    requires NoUpper(t) && k < 5 && Contains(t, SellWords[k])
    ensures NormalizeType(Some(t)) == Some("selling")
  {
    LowerUnchanged(t);
  }

  lemma BuyMatched(t: string, k: nat)
    requires NoUpper(t) && k < 5 && Contains(t, BuyWords[k])
    requires !ContainsAny(t, SellWords)
    ensures NormalizeType(Some(t)) == Some("buying")
  {
    LowerUnchanged(t);
  }

  lemma PayMatched(t: string, k: nat)
    requires NoUpper(t) && k < 5 && Contains(t, PayWords[k])
    requires !ContainsAny(t, SellWords) && !ContainsAny(t, BuyWords)
    ensures NormalizeType(Some(t)) == Some("payment")
  {
    LowerUnchanged(t);
  }

  /*
   * Which words a literal type holds not: each lemma names, for every word of one family,
   * a character of that word the type lacks.
   */
  lemma BuyingNoSell()
    ensures !ContainsAny("buying", SellWords)
  {
    MissingChars("buying", SellWords, "ssvsd");
  }

  lemma PaymentNoSell()
    ensures !ContainsAny("payment", SellWords)
  {
    MissingChars("payment", SellWords, "ssvsd");
  }

  lemma PaymentNoBuy()
    ensures !ContainsAny("payment", BuyWords)
  {
    MissingChars("payment", BuyWords, "buvvo");
  }

  lemma SoldNoSell()
    ensures !ContainsAny("sold", SellWords)
  {
    MissingChars("sold", SellWords, "eavue");
  }

  lemma SoldNoBuy()
    ensures !ContainsAny("sold", BuyWords)
  {
    MissingChars("sold", BuyWords, "bpvvr");
  }

  lemma SoldNoPay()
    ensures !ContainsAny("sold", PayWords)
  {
    MissingChars("sold", PayWords, "prcke");
  }

  lemma BoughtNoSell()
    ensures !ContainsAny("bought", SellWords)
  {
    MissingChars("bought", SellWords, "ssvsd");
  }

  lemma BoughtNoBuy()
    ensures !ContainsAny("bought", BuyWords)
  {
    MissingChars("bought", BuyWords, "ypvvr");
  }

  lemma BoughtNoPay()
    ensures !ContainsAny("bought", PayWords)
  {
    MissingChars("bought", PayWords, "prcks");
  }

  lemma PaidNoSell()
    ensures !ContainsAny("paid", SellWords)
  {
    MissingChars("paid", SellWords, "ssvse");
  }

  lemma PaidNoBuy()
    ensures !ContainsAny("paid", BuyWords)
  {
    MissingChars("paid", BuyWords, "buvvo");
  }

  lemma PaidNoPay()
    ensures !ContainsAny("paid", PayWords)
  {
    MissingChars("paid", PayWords, "yrcks");
  }

  /** The three canonical values are left as they are. */
  lemma SellingFixed()
    ensures NormalizeType(Some("selling")) == Some("selling")
  {
    SellMatched("selling", 0);
  }

  lemma BuyingFixed()
    ensures NormalizeType(Some("buying")) == Some("buying")
  {
    BuyingNoSell();
    BuyMatched("buying", 0);
  }

  lemma PaymentFixed()
    ensures NormalizeType(Some("payment")) == Some("payment")
  {
    PaymentNoSell();
    PaymentNoBuy();
    PayMatched("payment", 0);
  }

  /** Normalising twice is normalising once, whatever the model returned. */
  lemma NormalizeTypeIdempotent(t: Option<string>)
    ensures NormalizeType(NormalizeType(t)) == NormalizeType(t)
  {
    SellingFixed();
    BuyingFixed();
    PaymentFixed();
  }

  /**
   * Past-tense words the prompt asks the models to recognise are not caught by the word
   * families: "sold", "bought" and "paid" come back unchanged.
   */
  lemma SoldKept()
    ensures NormalizeType(Some("sold")) == Some("sold")
  {
    SoldNoSell();
    SoldNoBuy();
    SoldNoPay();
    Unmatched("sold");
  }

  lemma BoughtKept()
    ensures NormalizeType(Some("bought")) == Some("bought")
  {
    BoughtNoSell();
    BoughtNoBuy();
    BoughtNoPay();
    Unmatched("bought");
  }

  lemma PaidKept()
    ensures NormalizeType(Some("paid")) == Some("paid")
  {
    PaidNoSell();
    PaidNoBuy();
    PaidNoPay();
    Unmatched("paid");
  }

  /** The sentence check: missing, not a string, or blank after `trim`. */
  predicate ValidSentence(sentence: Option<string>) {
    sentence.Some? && !IsBlank(sentence.value)
  }

  /** The index of the first model whose call succeeds on `input`. */
  function FirstSuccess(models: seq<string>, input: string, llm: (string, string) -> Option<Parsed>): (r: Option<nat>)
    ensures r.Some? ==> r.value < |models| && llm(models[r.value], input).Some?
    ensures r.Some? ==> forall j :: 0 <= j < r.value ==> llm(models[j], input).None?
    ensures r.None? <==> forall j :: 0 <= j < |models| ==> llm(models[j], input).None?
  {
    if models == [] then None
    else if llm(models[0], input).Some? then Some(0)
    else
      var rest := FirstSuccess(models[1..], input, llm);
      if rest.None? then
        assert forall j :: 1 <= j < |models| ==> models[j] == models[1..][j - 1];
        None
      else
        assert forall j :: 1 <= j <= rest.value ==> models[j] == models[1..][j - 1];
        Some(rest.value + 1)
  }

  /** The search stops at the first model that answers. */
  lemma {:induction false} FirstSuccessAt(models: seq<string>, input: string, llm: (string, string) -> Option<Parsed>, i: nat)
    requires i < |models| && llm(models[i], input).Some?
    requires forall j :: 0 <= j < i ==> llm(models[j], input).None?
    ensures FirstSuccess(models, input, llm) == Some(i)
  {
    if i > 0 {
      assert llm(models[0], input).None?;
      assert forall j :: 0 <= j < i - 1 ==> models[1..][j] == models[j + 1];
      FirstSuccessAt(models[1..], input, llm, i - 1);
    }
  }

  /** The reply to the request: the sentence check, then the models in their listed order. */
  function Respond(sentence: Option<string>, llm: (string, string) -> Option<Parsed>): (r: Reply)
    ensures r == BadRequest <==> !ValidSentence(sentence)
    ensures r == Failed <==>
      ValidSentence(sentence) && forall j :: 0 <= j < |Models| ==> llm(Models[j], Trim(sentence.value)).None?
    ensures r.Answer? ==> var input := Trim(sentence.value);
      exists j :: 0 <= j < |Models| && llm(Models[j], input).Some? && r.parsed == Normalize(llm(Models[j], input).value)
        && forall k :: 0 <= k < j ==> llm(Models[k], input).None?
    ensures r.Answer? ==> r.parsed.transactionType == NormalizeType(r.parsed.transactionType)
  {
    if !ValidSentence(sentence) then BadRequest
    else
      var input := Trim(sentence.value);
      var first := FirstSuccess(Models, input, llm);
      if first.None? then Failed
      else
        Answer(Normalize(llm(Models[first.value], input).value))
  }

  /** The number of model calls a request makes. */
  function Calls(sentence: Option<string>, llm: (string, string) -> Option<Parsed>): (n: nat)
    ensures n <= |Models|
    ensures n == 0 <==> !ValidSentence(sentence)
  {
    if !ValidSentence(sentence) then 0
    else
      var first := FirstSuccess(Models, Trim(sentence.value), llm);
      if first.None? then |Models| else first.value + 1
  }

  /** `parseInvoiceSentence`: `calls` counts the models asked. */
  method ParseInvoiceSentence(sentence: Option<string>, llm: (string, string) -> Option<Parsed>)
    returns (reply: Reply, calls: nat)
    ensures reply == Respond(sentence, llm)
    ensures calls == Calls(sentence, llm)
  {
    if sentence.None? || IsBlank(sentence.value) {
      return BadRequest, 0;
    }
    var input := Trim(sentence.value);
    var i := 0;
    calls := 0;
    while i < |Models|
      invariant 0 <= i <= |Models| && calls == i
      invariant forall j :: 0 <= j < i ==> llm(Models[j], input).None?
    {
      var answer := llm(Models[i], input);
      calls := calls + 1;
      if answer.Some? {
        FirstSuccessAt(Models, input, llm, i);
        return Answer(Normalize(answer.value)), calls;
      }
      i := i + 1;
    }
    reply := Failed;
  }
}
