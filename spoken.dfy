/**
 * `parse_price` and `parse_quantity` of `main.py`: spoken Portuguese numbers.
 * Each first tries the library conversion (`float(...)`, `int(...)`), whose
 * outcome is a parameter here (None when it raises `ValueError`), and
 * otherwise reads the words of `str.split()`. Prices are integer cents.
 */
module Spoken {
  import opened Wrappers
  import Text

  /** `number_words` of `parse_price`. */
  const PriceWords: map<string, nat> := map[
    "um" := 1, "dois" := 2, "três" := 3, "quatro" := 4, "cinco" := 5,
    "seis" := 6, "sete" := 7, "oito" := 8, "nove" := 9, "dez" := 10,
    "vinte" := 20, "trinta" := 30, "quarenta" := 40, "cinquenta" := 50,
    "sessenta" := 60, "setenta" := 70, "oitenta" := 80, "noventa" := 90,
    "cem" := 100]

  /** `number_words` of `parse_quantity`: the price words up to fifty. */
  const QuantityWords: map<string, nat> := map[
    "um" := 1, "dois" := 2, "três" := 3, "quatro" := 4, "cinco" := 5,
    "seis" := 6, "sete" := 7, "oito" := 8, "nove" := 9, "dez" := 10,
    "vinte" := 20, "trinta" := 30, "quarenta" := 40, "cinquenta" := 50]

  /** The price the fallback yields when no number word is heard: 5.0. */
  const DefaultPrice := 500

  /** The quantity the fallback yields when no number word is heard. */
  const DefaultQuantity := 1

  /** The quantity table is the price table cut at fifty, so both agree on the words they share. */
  lemma QuantityWordsArePriceWords()
    ensures forall w :: w in QuantityWords <==> w in PriceWords && PriceWords[w] <= 50
    ensures forall w :: w in QuantityWords ==> QuantityWords[w] == PriceWords[w]
  {
  }

  /** The words that end the price: "reais" and "real". */
  predicate IsCurrency(w: string) {
    w == "reais" || w == "real"
  }

  /**
   * The fallback sum of `parse_price`: the values of the number words, in order,
   * up to the first "reais"/"real"; other words are skipped.
   */
  function WordSum(words: seq<string>): nat
    decreases |words|
  {
    if |words| == 0 then 0
    else if words[0] in PriceWords then PriceWords[words[0]] + WordSum(words[1..])
    else if IsCurrency(words[0]) then 0
    else WordSum(words[1..])
  }

  /** Before the first currency word the sum is additive: `WordSum(a + b)` adds the sum of `b`. */
  lemma {:induction false} WordSumConcat(a: seq<string>, b: seq<string>)
    requires forall k :: 0 <= k < |a| ==> !IsCurrency(a[k])
    ensures WordSum(a + b) == WordSum(a) + WordSum(b)
    decreases |a|
  {
    if |a| == 0 {
      assert a + b == b;
    } else {
      assert (a + b)[1..] == a[1..] + b;
      WordSumConcat(a[1..], b);
    }
  }

  /** Everything after the first "reais"/"real" is ignored. */
  lemma WordSumStopsAtCurrency(a: seq<string>, c: string, b: seq<string>)
    requires forall k :: 0 <= k < |a| ==> !IsCurrency(a[k])
    requires IsCurrency(c)
    ensures WordSum(a + [c] + b) == WordSum(a)
  {
    assert a + [c] + b == a + ([c] + b);
    WordSumConcat(a, [c] + b);
  }

  /** A word that is neither a number nor a currency word does not change the sum. */
  lemma WordSumSkips(a: seq<string>, w: string, b: seq<string>)
    requires forall k :: 0 <= k < |a| ==> !IsCurrency(a[k])
    requires w !in PriceWords && !IsCurrency(w)
    ensures WordSum(a + [w] + b) == WordSum(a + b)
  {
    assert a + [w] + b == a + ([w] + b);
    WordSumConcat(a, [w] + b);
    WordSumConcat(a, b);
  }

  /** "vinte e cinco reais" is 25; in "dois reais e cinquenta centavos" only the two counts. */
  lemma WordSumExamples()
    ensures WordSum(["vinte", "e", "cinco", "reais"]) == 25
    ensures WordSum(["dois", "reais", "e", "cinquenta", "centavos"]) == 2
    ensures WordSum(["muito", "barato"]) == 0
  {
  }

  /** The price `parse_price` yields for `s` when `float(s)` gives `asFloat` (None: it raised). */
  function PriceValue(s: string, asFloat: Option<int>): int {
    if asFloat.Some? then asFloat.value
    else
      var total := WordSum(Text.Words(s));
      if total > 0 then total * 100 else DefaultPrice
  }

  /** The fallback always yields a positive whole number of reais. */
  lemma PriceFallbackPositive(s: string)
    ensures PriceValue(s, None) > 0 && PriceValue(s, None) % 100 == 0
  {
  }

  /** The spoken "cem" is a price of 100.00. */
  lemma PriceOfCem()
    ensures PriceValue("cem", None) == 10000
  {
    Text.WordsOfPadded([], "cem", []);
    assert [] + "cem" + [] == "cem";
  }

  /** `parse_price`: the accumulating loop over the words, stopping at the first currency word. */
  method ParsePrice(priceStr: string, asFloat: Option<int>) returns (cents: int)
    ensures cents == PriceValue(priceStr, asFloat)
    ensures asFloat.None? ==> cents > 0
  {
    if asFloat.Some? {
      return asFloat.value;
    }
    var words := Text.Words(priceStr);
    var total := 0;
    var i := 0;
    while i < |words|
      invariant 0 <= i <= |words|
      invariant forall k :: 0 <= k < i ==> !IsCurrency(words[k])
      invariant total == WordSum(words[..i])
    {
      var word := words[i];
      if word in PriceWords {
        WordSumConcat(words[..i], [word]);
        assert words[..i + 1] == words[..i] + [word];
        total := total + PriceWords[word];
      } else if word == "reais" || word == "real" {
        WordSumStopsAtCurrency(words[..i], word, words[i + 1..]);
        assert words[..i] + [word] + words[i + 1..] == words;
        break;
      } else {
        WordSumConcat(words[..i], [word]);
        assert words[..i + 1] == words[..i] + [word];
      }
      i := i + 1;
    }
    if i == |words| {
      assert words[..i] == words;
    }
    return if total > 0 then total * 100 else DefaultPrice;
  }

  /** Index of the first word that is a quantity word, scanning left to right. */
  function FirstQuantityWord(words: seq<string>): (r: Option<nat>)
    ensures r.Some? ==> r.value < |words| && words[r.value] in QuantityWords
    ensures r.Some? ==> forall j :: 0 <= j < r.value ==> words[j] !in QuantityWords
    ensures r.None? <==> forall j :: 0 <= j < |words| ==> words[j] !in QuantityWords
    decreases |words|
  {
    if |words| == 0 then None
    else if words[0] in QuantityWords then Some(0)
    else match FirstQuantityWord(words[1..])
      case None => None
      case Some(k) => Some(k + 1)
  }

  /** The quantity `parse_quantity` yields for `s` when `int(s)` gives `asInt` (None: it raised). */
  function QuantityValue(s: string, asInt: Option<int>): int {
    if asInt.Some? then asInt.value
    else
      var words := Text.Words(s);
      match FirstQuantityWord(words)
      case Some(k) => QuantityWords[words[k]]
      case None => DefaultQuantity
  }

  /** The fallback yields a quantity between one and fifty, and one when no quantity word is heard. */
  lemma QuantityFallbackRange(s: string)
    ensures 1 <= QuantityValue(s, None) <= 50
    ensures (forall k :: 0 <= k < |Text.Words(s)| ==> Text.Words(s)[k] !in QuantityWords) ==> QuantityValue(s, None) == 1
  {
    var words := Text.Words(s);
    if FirstQuantityWord(words).Some? {
      var w := words[FirstQuantityWord(words).value];
      assert w in QuantityWords;
    }
  }

  /** Words after the first quantity word never matter: the first one wins. */
  lemma FirstQuantityWordWins(a: seq<string>, w: string, b: seq<string>)
    requires forall k :: 0 <= k < |a| ==> a[k] !in QuantityWords
    requires w in QuantityWords
    ensures FirstQuantityWord(a + [w] + b) == Some(|a|)
  {
    var ws := a + [w] + b;
    assert ws[|a|] == w;
    assert forall j :: 0 <= j < |a| ==> ws[j] == a[j];
  }

  /** `parse_quantity`: the scan of the words with an early return on the first quantity word. */
  method ParseQuantity(quantityStr: string, asInt: Option<int>) returns (q: int)
    ensures q == QuantityValue(quantityStr, asInt)
    ensures asInt.None? ==> 1 <= q <= 50
  {
    if asInt.Some? {
      return asInt.value;
    }
    var words := Text.Words(quantityStr);
    QuantityFallbackRange(quantityStr);
    var i := 0;
    while i < |words|
      invariant 0 <= i <= |words|
      invariant forall k :: 0 <= k < i ==> words[k] !in QuantityWords
    {
      var word := words[i];
      if word in QuantityWords {
        assert FirstQuantityWord(words) == Some(i);
        return QuantityWords[word];
      }
      i := i + 1;
    }
    return DefaultQuantity;
  }
}
