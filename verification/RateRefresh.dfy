/** Storing the latest published rates, one source after another. */
module RateRefresh {
  import opened Wrappers
  import opened Amounts
  import opened Rates

  datatype Quote = Quote(currency: Currency, unitsPerEur: PositiveRate)

  /** What one source answered; None when it could not be fetched or understood. */
  datatype Source = Source(name: string, quotes: Option<seq<Quote>>)

  predicate Publishes(source: Source, c: Currency) {
    source.quotes.Some? && exists i :: 0 <= i < |source.quotes.value| && source.quotes.value[i].currency == c
  }

  /** The first quote for a currency in a list. */
  function FirstIn(quotes: seq<Quote>, c: Currency): Option<Quote> {
    if quotes == [] then None
    else if quotes[0].currency == c then Some(quotes[0])
    else FirstIn(quotes[1..], c)
  }

  /** All quotes, in priority order. */
  function AllQuotes(sources: seq<Source>): seq<Quote> {
    if sources == [] then []
    else AllQuotes(sources[..|sources| - 1]) + sources[|sources| - 1].quotes.GetOr([])
  }

  function FailedNames(sources: seq<Source>): seq<string> {
    if sources == [] then []
    else FailedNames(sources[..|sources| - 1]) + (if sources[|sources| - 1].quotes.None? then [sources[|sources| - 1].name] else [])
  }

  lemma {:induction false} FirstInAppended(quotes: seq<Quote>, q: Quote, c: Currency)
    ensures FirstIn(quotes + [q], c) == (if FirstIn(quotes, c).Some? then FirstIn(quotes, c) else if q.currency == c then Some(q) else None)
  {
    if quotes == [] {
      assert [] + [q] == [q];
    } else {
      assert (quotes + [q])[1..] == quotes[1..] + [q];
      FirstInAppended(quotes[1..], q, c);
    }
  }

  /** What has been chosen from the quotes seen so far: for each currency but the euro, the first one. */
  ghost predicate ChosenFrom(chosen: map<Currency, Quote>, quotes: seq<Quote>) {
    forall c: Currency :: if c.EUR? then c !in chosen else (if c in chosen then FirstIn(quotes, c) == Some(chosen[c]) else FirstIn(quotes, c).None?)
  }

  /** Choose a rate per currency; the caller saves what was chosen over what is stored. */
  method Refresh(sources: seq<Source>) returns (chosen: map<Currency, Quote>, failed: seq<string>)
    ensures ChosenFrom(chosen, AllQuotes(sources))
    ensures failed == FailedNames(sources)
  {
    chosen, failed := map[], [];
    for i := 0 to |sources|
      invariant ChosenFrom(chosen, AllQuotes(sources[..i]))
      invariant failed == FailedNames(sources[..i])
    {
      assert sources[..i + 1][..i] == sources[..i];
      ghost var before := AllQuotes(sources[..i]);
      if sources[i].quotes.None? {
        failed := failed + [sources[i].name];
        assert before + [] == before;
      } else {
        var quotes := sources[i].quotes.value;
        assert before + quotes[..0] == before;
        for j := 0 to |quotes|
          invariant ChosenFrom(chosen, before + quotes[..j])
        {
          assert before + quotes[..j + 1] == before + quotes[..j] + [quotes[j]];
          forall c: Currency {
            FirstInAppended(before + quotes[..j], quotes[j], c);
          }
          if !quotes[j].currency.EUR? && quotes[j].currency !in chosen {
            chosen := chosen[quotes[j].currency := quotes[j]];
          }
        }
        assert quotes[..|quotes|] == quotes;
      }
    }
    assert sources[..|sources|] == sources;
  }

  lemma {:induction false} FirstInJoined(a: seq<Quote>, b: seq<Quote>, c: Currency)
    ensures FirstIn(a + b, c) == if FirstIn(a, c).Some? then FirstIn(a, c) else FirstIn(b, c)
  {
    if a == [] {
      assert a + b == b;
    } else {
      assert (a + b)[1..] == a[1..] + b;
      FirstInJoined(a[1..], b, c);
    }
  }

  lemma {:induction false} PublishesIff(quotes: seq<Quote>, c: Currency)
    ensures FirstIn(quotes, c).Some? <==> exists i :: 0 <= i < |quotes| && quotes[i].currency == c
  {
    if quotes != [] && quotes[0].currency != c {
      PublishesIff(quotes[1..], c);
      if i :| 0 <= i < |quotes| && quotes[i].currency == c {
        assert quotes[1..][i - 1].currency == c;
      }
      if i :| 0 <= i < |quotes[1..]| && quotes[1..][i].currency == c {
        assert quotes[i + 1].currency == c;
      }
    }
  }

  /** An earlier source wins: the quote chosen comes from the first source that publishes the currency. */
  lemma {:induction false} EarlierSourceWins(sources: seq<Source>, c: Currency, i: nat)
    requires i < |sources| && Publishes(sources[i], c) && forall j | 0 <= j < i :: !Publishes(sources[j], c)
    ensures FirstIn(AllQuotes(sources), c) == FirstIn(sources[i].quotes.value, c) && FirstIn(sources[i].quotes.value, c).Some?
    decreases |sources|
  {
    var n := |sources| - 1;
    var last := sources[n].quotes.GetOr([]);
    FirstInJoined(AllQuotes(sources[..n]), last, c);
    PublishesIff(last, c);
    if i < n {
      EarlierSourceWins(sources[..n], c, i);
    } else {
      NobodyPublishes(sources[..n], c);
    }
  }

  lemma {:induction false} NobodyPublishes(sources: seq<Source>, c: Currency)
    requires forall j | 0 <= j < |sources| :: !Publishes(sources[j], c)
    ensures FirstIn(AllQuotes(sources), c).None?
  {
    if sources != [] {
      var n := |sources| - 1;
      var last := sources[n].quotes.GetOr([]);
      NobodyPublishes(sources[..n], c);
      FirstInJoined(AllQuotes(sources[..n]), last, c);
      PublishesIff(last, c);
    }
  }
}
