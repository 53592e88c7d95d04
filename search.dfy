/**
 * The search box of both location analyzers. While typing, a term longer
 * than two characters (UTF-16 code units, as `String.prototype.length`
 * counts them) lists the sample locations whose lower-cased name
 * includes the lower-cased term, in the samples' order; shorter terms clear
 * the list. Submitting ignores terms shorter than three characters.
 */
module Search {
  import opened Text

  /** `name.toLowerCase().includes(term.toLowerCase())` */
  predicate Matches(name: string, term: string) {
    Contains(ToLower(name), ToLower(term))
  }

  /** `samples.filter(s => Matches(s.name, term))` */
  function Filter<T>(samples: seq<T>, nameOf: T -> string, term: string): (r: seq<T>)
    ensures |r| <= |samples|
  {
    if samples == [] then []
    else Keep(samples[0], nameOf, term) + Filter(samples[1..], nameOf, term)
  }

  /** One sample's contribution to the filter: itself when it matches, nothing otherwise. */
  function Keep<T>(x: T, nameOf: T -> string, term: string): seq<T> {
    if Matches(nameOf(x), term) then [x] else []
  }

  /** The suggestions handleSearchChange stores for a search-box value. */
  function Suggestions<T>(samples: seq<T>, nameOf: T -> string, value: string): seq<T> {
    if Utf16Length(value) > 2 then Filter(samples, nameOf, value) else []
  }

  /** handleSearchSubmit goes on only with a term of three characters or more. */
  predicate SubmitAccepted(searchTerm: string) {
    !(Utf16Length(searchTerm) < 3)
  }

  /** The filter keeps exactly the matching samples. */
  lemma {:induction false} FilterMembership<T>(samples: seq<T>, nameOf: T -> string, term: string, x: T)
    ensures x in Filter(samples, nameOf, term) <==> x in samples && Matches(nameOf(x), term)
  {
    if samples != [] {
      FilterMembership(samples[1..], nameOf, term, x);
      assert samples == [samples[0]] + samples[1..];
    }
  }

  /** The filter keeps the samples' order: it distributes over concatenation. */
  lemma {:induction false} FilterAppend<T>(xs: seq<T>, ys: seq<T>, nameOf: T -> string, term: string)
    ensures Filter(xs + ys, nameOf, term) == Filter(xs, nameOf, term) + Filter(ys, nameOf, term)
  {
    if xs == [] {
      assert xs + ys == ys;
    } else {
      var zs := xs + ys;
      assert zs[0] == xs[0];
      assert zs[1..] == xs[1..] + ys;
      FilterAppend(xs[1..], ys, nameOf, term);
      var k := Keep(xs[0], nameOf, term);
      calc {
        Filter(zs, nameOf, term);
        k + Filter(xs[1..] + ys, nameOf, term);
        k + (Filter(xs[1..], nameOf, term) + Filter(ys, nameOf, term));
        (k + Filter(xs[1..], nameOf, term)) + Filter(ys, nameOf, term);
      }
    }
  }

  /** Every result of a filter matches the term. */
  lemma {:induction false} FilterAllMatch<T>(samples: seq<T>, nameOf: T -> string, term: string)
    ensures forall i :: 0 <= i < |Filter(samples, nameOf, term)| ==>
      Matches(nameOf(Filter(samples, nameOf, term)[i]), term)
  {
    if samples != [] {
      FilterAllMatch(samples[1..], nameOf, term);
    }
  }

  /**
   * A sample is suggested exactly when the value is longer than two code
   * units and the sample's name includes it, ignoring case.
   */
  lemma SuggestionsMembership<T>(samples: seq<T>, nameOf: T -> string, value: string, x: T)
    ensures x in Suggestions(samples, nameOf, value) <==>
      Utf16Length(value) > 2 && x in samples && Matches(nameOf(x), value)
  {
    if Utf16Length(value) > 2 {
      FilterMembership(samples, nameOf, value, x);
    }
  }
}
