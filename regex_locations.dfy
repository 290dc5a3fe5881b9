/** RegexCheck.RegexIssueLocation: the location of an issue raised on a regular expression, as
    the text spans of the Java source that hold the offending part of the regex. Regex syntax
    elements are given by their index range in the regex; the translation of a range into text
    spans (JavaAnalyzerRegexSource.textSpansFor: one range can cover several string literals of a
    concatenation) is a parameter. */
module RegexLocations {

  /** A range of indices in the regex, from beginningOffset (inclusive) to endingOffset
      (exclusive). */
  datatype IndexRange = IndexRange(beginningOffset: int, endingOffset: int)

  /** A span of the Java source file. */
  datatype TextSpan = TextSpan(startLine: int, startCharacter: int, endLine: int, endCharacter: int)

  datatype RegexIssueLocation = RegexIssueLocation(locations: seq<TextSpan>, message: string)

  datatype Option<T> = None | Some(value: T)

  /** The outcome of an operation that can throw. */
  datatype Outcome<T> = Success(value: T) | IndexOutOfBounds

  const CONTINUATION_MESSAGE: string := "Continuing here"

  // ---------------------------------------------------------------------------------------------
  // Coalescing the ranges of consecutive syntax elements

  /** Two ranges abut when the second begins where the first ends. */
  predicate Abut(a: IndexRange, b: IndexRange) {
    b.beginningOffset == a.endingOffset
  }

  /** The ranges that the loop of textSpansFromRegexSyntaxElements flushes, the last open range
      included: each element either extends the open range (when it begins where that range
      ends) or closes it and opens its own. */
  function Coalesce(ranges: seq<IndexRange>): (r: seq<IndexRange>)
    requires |ranges| > 0
    ensures 1 <= |r| <= |ranges|
    ensures r[0].beginningOffset == ranges[0].beginningOffset
    ensures r[|r| - 1].endingOffset == ranges[|ranges| - 1].endingOffset
  {
    if |ranges| == 1 then ranges
    else
      var previous := Coalesce(ranges[..|ranges| - 1]);
      var open := previous[|previous| - 1];
      var next := ranges[|ranges| - 1];
      if Abut(open, next) then previous[..|previous| - 1] + [IndexRange(open.beginningOffset, next.endingOffset)]
      else previous + [next]
  }

  /** The number of consecutive pairs that do not abut. */
  function Breaks(ranges: seq<IndexRange>): nat {
    if |ranges| <= 1 then 0
    else Breaks(ranges[..|ranges| - 1]) + (if Abut(ranges[|ranges| - 2], ranges[|ranges| - 1]) then 0 else 1)
  }

  /** One more element merges into the last range exactly when it abuts the previous element;
      otherwise it is a range of its own, appended after the others, which are kept. */
  lemma CoalesceStep(ranges: seq<IndexRange>, next: IndexRange)
    requires |ranges| > 0
    ensures var before := Coalesce(ranges);
            var after := Coalesce(ranges + [next]);
            && (Abut(ranges[|ranges| - 1], next) ==>
                  after == before[..|before| - 1] + [IndexRange(before[|before| - 1].beginningOffset, next.endingOffset)])
            && (!Abut(ranges[|ranges| - 1], next) ==> after == before + [next])
  {
    assert (ranges + [next])[..|ranges|] == ranges;
  }

  /** There is one range per run of abutting elements: one more than the pairs that do not
      abut. */
  lemma {:induction false} CoalesceCount(ranges: seq<IndexRange>)
    requires |ranges| > 0
    ensures |Coalesce(ranges)| == Breaks(ranges) + 1
  {
    if |ranges| > 1 {
      var init := ranges[..|ranges| - 1];
      CoalesceCount(init);
      assert init[|init| - 1] == ranges[|ranges| - 2];
    }
  }

  /** When no two consecutive elements abut (gaps or overlaps), every element stays a range of
      its own. */
  lemma {:induction false} GappedRangesStaySeparate(ranges: seq<IndexRange>)
    requires |ranges| > 0
    requires forall i :: 0 < i < |ranges| ==> !Abut(ranges[i - 1], ranges[i])
    ensures Coalesce(ranges) == ranges
  {
    if |ranges| > 1 {
      var init := ranges[..|ranges| - 1];
      GappedRangesStaySeparate(init);
      assert init + [ranges[|ranges| - 1]] == ranges;
    }
  }

  /** When every element abuts the previous one, the elements make a single range from the
      beginning of the first to the end of the last. */
  lemma {:induction false} AbuttingRangesMerge(ranges: seq<IndexRange>)
    requires |ranges| > 0
    requires forall i :: 0 < i < |ranges| ==> Abut(ranges[i - 1], ranges[i])
    ensures Coalesce(ranges) == [IndexRange(ranges[0].beginningOffset, ranges[|ranges| - 1].endingOffset)]
  {
    if |ranges| > 1 {
      var init := ranges[..|ranges| - 1];
      AbuttingRangesMerge(init);
    }
  }

  /** The text spans of a sequence of ranges, range after range, each range's spans in order. */
  function SpansOf(ranges: seq<IndexRange>, textSpansFor: IndexRange -> seq<TextSpan>): (r: seq<TextSpan>)
    ensures ranges == [] ==> r == []
  {
    if ranges == [] then []
    else SpansOf(ranges[..|ranges| - 1], textSpansFor) + textSpansFor(ranges[|ranges| - 1])
  }

  /** The state of the loop of textSpansFromRegexSyntaxElements after the elements `seen`: the
      open range is the last coalesced range and the spans of the others are flushed. */
  ghost predicate Pending(seen: seq<IndexRange>, current: IndexRange, locations: seq<TextSpan>, textSpansFor: IndexRange -> seq<TextSpan>)
    requires |seen| > 0
  {
    var ranges := Coalesce(seen);
    current == ranges[|ranges| - 1] && locations == SpansOf(ranges[..|ranges| - 1], textSpansFor)
  }

  /** An abutting element extends the open range. */
  lemma PendingMerge(seen: seq<IndexRange>, tree: IndexRange, current: IndexRange, locations: seq<TextSpan>, textSpansFor: IndexRange -> seq<TextSpan>)
    requires |seen| > 0 && Pending(seen, current, locations, textSpansFor)
    requires tree.beginningOffset == current.endingOffset
    ensures Pending(seen + [tree], IndexRange(current.beginningOffset, tree.endingOffset), locations, textSpansFor)
  {
    var previous := Coalesce(seen);
    var n := |previous|;
    assert previous[n - 1].endingOffset == seen[|seen| - 1].endingOffset;
    assert Abut(seen[|seen| - 1], tree);
    CoalesceStep(seen, tree);
    var ranges := Coalesce(seen + [tree]);
    var kept := previous[..n - 1];
    assert ranges == kept + [IndexRange(current.beginningOffset, tree.endingOffset)];
    assert ranges[..|ranges| - 1] == kept;
  }

  /** Any other element flushes the open range and opens its own. */
  lemma PendingFlush(seen: seq<IndexRange>, tree: IndexRange, current: IndexRange, locations: seq<TextSpan>, textSpansFor: IndexRange -> seq<TextSpan>)
    requires |seen| > 0 && Pending(seen, current, locations, textSpansFor)
    requires tree.beginningOffset != current.endingOffset
    ensures Pending(seen + [tree], tree, locations + textSpansFor(current), textSpansFor)
  {
    var previous := Coalesce(seen);
    CoalesceStep(seen, tree);
    var ranges := Coalesce(seen + [tree]);
    assert ranges[..|ranges| - 1] == previous;
    assert previous[..|previous| - 1] + [current] == previous;
  }

  /** Flushing the open range at the end gives the spans of all coalesced ranges. */
  lemma PendingDone(seen: seq<IndexRange>, current: IndexRange, locations: seq<TextSpan>, textSpansFor: IndexRange -> seq<TextSpan>)
    requires |seen| > 0 && Pending(seen, current, locations, textSpansFor)
    ensures locations + textSpansFor(current) == SpansOf(Coalesce(seen), textSpansFor)
  {
    var ranges := Coalesce(seen);
    assert current == ranges[|ranges| - 1];
    assert SpansOf(ranges, textSpansFor) == SpansOf(ranges[..|ranges| - 1], textSpansFor) + textSpansFor(ranges[|ranges| - 1]);
  }

  /** textSpansFromRegexSyntaxElements: the spans of the coalesced ranges. The regex source is read
      from the first element, so an empty list fails there. */
  method TextSpansFromRegexSyntaxElements(elements: seq<IndexRange>, textSpansFor: IndexRange -> seq<TextSpan>)
    returns (r: Outcome<seq<TextSpan>>)
    ensures r.Success? <==> |elements| > 0
    ensures r.Success? ==> r.value == SpansOf(Coalesce(elements), textSpansFor)
  {
    if |elements| == 0 {
      return IndexOutOfBounds;
    }
    var locations := [];
    var current: Option<IndexRange> := None;
    for i := 0 to |elements|
      invariant current.None? <==> i == 0
      invariant i == 0 ==> locations == []
      invariant i > 0 ==> Pending(elements[..i], current.value, locations, textSpansFor)
    {
      var tree := elements[i];
      assert elements[..i + 1] == elements[..i] + [tree];
      if current.None? {
        current := Some(tree);
      } else if tree.beginningOffset == current.value.endingOffset {
        PendingMerge(elements[..i], tree, current.value, locations, textSpansFor);
        current := Some(IndexRange(current.value.beginningOffset, tree.endingOffset));
      } else {
        PendingFlush(elements[..i], tree, current.value, locations, textSpansFor);
        locations := locations + textSpansFor(current.value);
        current := Some(tree);
      }
    }
    assert elements[..|elements|] == elements;
    if current.Some? {
      PendingDone(elements, current.value, locations, textSpansFor);
      locations := locations + textSpansFor(current.value);
    }
    r := Success(locations);
  }

  // ---------------------------------------------------------------------------------------------
  // Locations

  /** The location of a single syntax element: the spans of its range. */
  function FromElement(range: IndexRange, message: string, textSpansFor: IndexRange -> seq<TextSpan>): (r: RegexIssueLocation)
    ensures r.message == message
    ensures r.locations == SpansOf([range], textSpansFor)
  {
    RegexIssueLocation(textSpansFor(range), message)
  }

  /** The location of a list of syntax elements; an empty list fails on its first element. */
  method FromElements(elements: seq<IndexRange>, message: string, textSpansFor: IndexRange -> seq<TextSpan>)
    returns (r: Outcome<RegexIssueLocation>)
    ensures r.Success? <==> |elements| > 0
    ensures r.Success? ==> r.value.message == message
    ensures r.Success? ==> r.value.locations == SpansOf(Coalesce(elements), textSpansFor)
  {
    var locations := TextSpansFromRegexSyntaxElements(elements, textSpansFor);
    if locations.IndexOutOfBounds? {
      return IndexOutOfBounds;
    }
    r := Success(RegexIssueLocation(locations.value, message));
  }

  /** toSingleLocationItems: a location with one span is returned as it is; otherwise one item
      per span, in order, the first with the message of the location and the others with the
      continuation message. A location without spans fails on its first span. */
  function ToSingleLocationItems(location: RegexIssueLocation): (r: Outcome<seq<RegexIssueLocation>>)
    ensures r.Success? <==> |location.locations| > 0
    ensures |location.locations| == 1 ==> r == Success([location])
    ensures r.Success? ==>
      && |r.value| == |location.locations|
      && (forall i :: 0 <= i < |r.value| ==> r.value[i].locations == [location.locations[i]])
      && r.value[0].message == location.message
      && (forall i :: 1 <= i < |r.value| ==> r.value[i].message == CONTINUATION_MESSAGE)
  {
    var spans := location.locations;
    if |spans| == 1 then Success([location])
    else if |spans| == 0 then IndexOutOfBounds
    else
      Success([RegexIssueLocation([spans[0]], location.message)] +
              seq(|spans| - 1, i requires 0 <= i < |spans| - 1 => RegexIssueLocation([spans[i + 1]], CONTINUATION_MESSAGE)))
  }

  /** The spans of all items, one after the other. */
  function AllLocations(items: seq<RegexIssueLocation>): seq<TextSpan> {
    if items == [] then [] else items[0].locations + AllLocations(items[1..])
  }

  /** Splitting into single-span items loses no span and adds none: the items' spans, in order,
      are the spans of the location. */
  lemma SingleLocationItemsKeepSpans(location: RegexIssueLocation)
    requires |location.locations| > 0
    ensures AllLocations(ToSingleLocationItems(location).value) == location.locations
  {
    var items := ToSingleLocationItems(location).value;
    SingleSpansFlatten(items, location.locations);
  }

  lemma {:induction false} SingleSpansFlatten(items: seq<RegexIssueLocation>, spans: seq<TextSpan>)
    requires |items| == |spans|
    requires forall i :: 0 <= i < |items| ==> items[i].locations == [spans[i]]
    ensures AllLocations(items) == spans
  {
    if items != [] {
      SingleSpansFlatten(items[1..], spans[1..]);
      assert spans == [spans[0]] + spans[1..];
    }
  }

  /** Splitting is idempotent: each item of the split is already a single-location item. */
  lemma SplitItemsAreSingle(location: RegexIssueLocation, i: nat)
    requires |location.locations| > 0
    requires i < |ToSingleLocationItems(location).value|
    ensures ToSingleLocationItems(ToSingleLocationItems(location).value[i]) == Success([ToSingleLocationItems(location).value[i]])
  {
  }

  /** Two abutting elements of a regex give the spans of their joint range. */
  lemma AbuttingPairScenario(textSpansFor: IndexRange -> seq<TextSpan>)
    ensures SpansOf(Coalesce([IndexRange(2, 5), IndexRange(5, 9)]), textSpansFor) == textSpansFor(IndexRange(2, 9))
  {
    var ranges := [IndexRange(2, 5), IndexRange(5, 9)];
    assert ranges[..1] == [IndexRange(2, 5)];
    assert Coalesce(ranges) == [IndexRange(2, 9)];
    assert SpansOf([IndexRange(2, 9)], textSpansFor) == SpansOf([], textSpansFor) + textSpansFor(IndexRange(2, 9));
  }
}
