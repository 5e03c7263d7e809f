/**
 The onboarding wizard (`NameForm`): four steps that collect a title and a
 name, the current location, the destination and the reason for travelling,
 then hand over to the dashboard. Place suggestions for the location and
 destination steps come from a place-search service; the outcome of a search
 is an input value here.
 */
module Onboarding {

  // ---------------------------------------------------------------------
  // Place-search results
  // ---------------------------------------------------------------------

  /** One entry of the place-search response: the fields the form reads. */
  datatype Place = Place(name: string, displayName: string, placeType: string, placeClass: string)

  /**
   How a search ended. `Failure` stands for every way the request can go
   wrong: the request throws, the response is not ok, or its body cannot be
   read as a list of places.
   */
  datatype FetchOutcome = Failure | Success(entries: seq<Place>)

  /**
   The filter's test. As written it reads
   `type === 'city' || class === 'boundary' && type === 'administrative'`,
   and `&&` binds tighter than `||`: a city passes whatever its class.
   */
  predicate IsCityResult(p: Place)
    ensures p.placeType == "city" ==> IsCityResult(p)
    ensures IsCityResult(p) ==> p.placeType in {"city", "administrative"}
    ensures p.placeType == "administrative" ==> (IsCityResult(p) <==> p.placeClass == "boundary")
  {
    p.placeType == "city" || (p.placeClass == "boundary" && p.placeType == "administrative")
  }

  /** The suggestion list made from a response: keep the city entries, then take their display names. */
  function CityDisplayNames(data: seq<Place>): (r: seq<string>)
    ensures |r| <= |data|
    ensures |r| == |data| <==> forall i :: 0 <= i < |data| ==> IsCityResult(data[i])
    ensures r == [] <==> forall i :: 0 <= i < |data| ==> !IsCityResult(data[i])
  {
    if data == [] then []
    else (if IsCityResult(data[0]) then [data[0].displayName] else []) + CityDisplayNames(data[1..])
  }

  /** The indices of `data` that pass the filter, in increasing order. */
  ghost function CityIndices(data: seq<Place>): (idx: seq<int>)
    ensures forall k :: 0 <= k < |idx| ==> 0 <= idx[k] < |data| && IsCityResult(data[idx[k]])
    ensures forall k, l :: 0 <= k < l < |idx| ==> idx[k] < idx[l]
    ensures forall i :: 0 <= i < |data| && IsCityResult(data[i]) ==> i in idx
  {
    if data == [] then []
    else
      var front := data[..|data| - 1];
      var idx := CityIndices(front);
      assert forall k :: 0 <= k < |idx| ==> data[idx[k]] == front[idx[k]];
      idx + (if IsCityResult(data[|data| - 1]) then [|data| - 1] else [])
  }

  /** Filtering distributes over concatenation. */
  lemma {:induction false} CityDisplayNamesAppend(a: seq<Place>, b: seq<Place>)
    ensures CityDisplayNames(a + b) == CityDisplayNames(a) + CityDisplayNames(b)
  {
    if a == [] {
      assert a + b == b;
    } else {
      var head := if IsCityResult(a[0]) then [a[0].displayName] else [];
      assert (a + b)[0] == a[0];
      assert (a + b)[1..] == a[1..] + b;
      calc {
        CityDisplayNames(a + b);
        head + CityDisplayNames(a[1..] + b);
        { CityDisplayNamesAppend(a[1..], b); }
        head + (CityDisplayNames(a[1..]) + CityDisplayNames(b));
        (head + CityDisplayNames(a[1..])) + CityDisplayNames(b);
        CityDisplayNames(a) + CityDisplayNames(b);
      }
    }
  }

  /**
   The suggestions are exactly the display names of the entries that pass the
   filter, one for each such entry (duplicates kept), in the response's order.
   */
  lemma {:induction false} CityDisplayNamesSelectsInOrder(data: seq<Place>)
    ensures |CityDisplayNames(data)| == |CityIndices(data)|
    ensures forall k :: 0 <= k < |CityIndices(data)| ==>
              CityDisplayNames(data)[k] == data[CityIndices(data)[k]].displayName
    decreases |data|
  {
    if data != [] {
      var front, last := data[..|data| - 1], data[|data| - 1];
      assert data == front + [last];
      CityDisplayNamesAppend(front, [last]);
      CityDisplayNamesSelectsInOrder(front);
      assert NamesAt(front, CityDisplayNames(front), CityIndices(front));
      assert CityDisplayNames([last]) == if IsCityResult(last) then [last.displayName] else [];
      NamesAtSnoc(front, last, CityDisplayNames(front), CityIndices(front), IsCityResult(last));
    }
  }

  /** `r` holds, position by position, the display names of the entries of `data` at the indices `idx`. */
  ghost predicate NamesAt(data: seq<Place>, r: seq<string>, idx: seq<int>) {
    |r| == |idx| && forall k :: 0 <= k < |idx| ==> 0 <= idx[k] < |data| && r[k] == data[idx[k]].displayName
  }

  /** Appending one entry, and its name and index when it is kept, preserves `NamesAt`. */
  lemma NamesAtSnoc(front: seq<Place>, last: Place, r0: seq<string>, idx0: seq<int>, keep: bool)
    requires NamesAt(front, r0, idx0)
    ensures NamesAt(front + [last], r0 + (if keep then [last.displayName] else []),
                    idx0 + (if keep then [|front|] else []))
  {
    var data := front + [last];
    var r := r0 + (if keep then [last.displayName] else []);
    var idx := idx0 + (if keep then [|front|] else []);
    forall k | 0 <= k < |idx| ensures 0 <= idx[k] < |data| && r[k] == data[idx[k]].displayName {
      if k < |idx0| {
        assert r[k] == r0[k] && idx[k] == idx0[k];
        assert data[idx0[k]] == front[idx0[k]];
      }
    }
  }

  /** A display name is suggested exactly when some city entry carries it. */
  lemma CityDisplayNamesMembership(data: seq<Place>, x: string)
    ensures x in CityDisplayNames(data) <==>
            exists i :: 0 <= i < |data| && IsCityResult(data[i]) && data[i].displayName == x
  {
    CityDisplayNamesSelectsInOrder(data);
    var r, idx := CityDisplayNames(data), CityIndices(data);
    if x in r {
      var k :| 0 <= k < |r| && r[k] == x;
      assert IsCityResult(data[idx[k]]) && data[idx[k]].displayName == x;
    }
    if exists i :: 0 <= i < |data| && IsCityResult(data[i]) && data[i].displayName == x {
      var i :| 0 <= i < |data| && IsCityResult(data[i]) && data[i].displayName == x;
      var k :| 0 <= k < |idx| && idx[k] == i;
      assert r[k] == x;
    }
  }

  /** The suggestion list a settled search leaves behind: empty after any failure. */
  function SuggestionsFor(outcome: FetchOutcome): (r: seq<string>)
    ensures outcome.Failure? ==> r == []
    ensures outcome.Success? ==> |r| <= |outcome.entries|
    ensures outcome.Success? ==> forall x :: x in r <==>
              exists i :: 0 <= i < |outcome.entries| && IsCityResult(outcome.entries[i]) && outcome.entries[i].displayName == x
  {
    match outcome
    case Failure => []
    case Success(data) =>
      var r := CityDisplayNames(data);
      assert forall x :: x in r <==> exists i :: 0 <= i < |data| && IsCityResult(data[i]) && data[i].displayName == x by {
        forall x { CityDisplayNamesMembership(data, x); }
      }
      r
  }

  // ---------------------------------------------------------------------
  // Wizard state and its transitions
  // ---------------------------------------------------------------------

  /** The values of the title drop-down. */
  predicate IsTitleOption(v: string) {
    v == "" || v == "Mr." || v == "Ms."
  }

  /** The values of the travel-reason drop-down. */
  predicate IsReasonOption(v: string) {
    v == "" || v == "study" || v == "family reunion"
  }

  /** The form's state, field for field. */
  datatype FormState = FormState(
    currentStep: int,
    title: string,
    name: string,
    location: string,
    destination: string,
    travelReason: string,
    suggestions: seq<string>,
    showDashboard: bool)
  {
    /** The step is one of the four pages; the drop-downs hold one of their options. */
    predicate Valid() {
      1 <= currentStep <= 4 && IsTitleOption(title) && IsReasonOption(travelReason)
    }
  }

  /** The state the form starts in. */
  const Initial := FormState(1, "", "", "", "", "", [], false)

  /**
   `handleNext`, with its delayed half applied at once: the suggestions are
   dropped, then step 4 switches to the dashboard and every earlier step
   moves one page on.
   */
  function Next(s: FormState): (r: FormState)
    requires s.Valid()
    ensures r.Valid()
    ensures r.suggestions == []
    ensures s.currentStep < 4 ==> r.currentStep == s.currentStep + 1 && r.showDashboard == s.showDashboard
    ensures s.currentStep == 4 ==> r.currentStep == 4 && r.showDashboard
    ensures r.(currentStep := s.currentStep, suggestions := s.suggestions, showDashboard := s.showDashboard) == s
  {
    var cleared := s.(suggestions := []);
    if s.currentStep == 4 then cleared.(showDashboard := true)
    else cleared.(currentStep := s.currentStep + 1)
  }

  /** `handlePrevious`: one page back, never below the first. */
  function Previous(s: FormState): (r: FormState)
    ensures r.currentStep >= 1
    ensures r.currentStep == if s.currentStep > 1 then s.currentStep - 1 else 1
    ensures s.currentStep == 1 ==> r == s
    ensures s.Valid() ==> r.Valid()
    ensures r.(currentStep := s.currentStep) == s
  {
    s.(currentStep := if 1 > s.currentStep - 1 then 1 else s.currentStep - 1)
  }

  /**
   `resetForm`: back to the first page with the title, name, destination and
   reason cleared and the dashboard hidden. The location and the suggestions
   are not touched.
   */
  function Reset(s: FormState): (r: FormState)
    ensures r.Valid()
    ensures r.currentStep == 1 && !r.showDashboard
    ensures r.title == "" && r.name == "" && r.destination == "" && r.travelReason == ""
    ensures r.location == s.location && r.suggestions == s.suggestions
  {
    FormState(1, "", "", s.location, "", "", s.suggestions, false)
  }

  /** Resetting twice is resetting once. */
  lemma ResetIdempotent(s: FormState)
    ensures Reset(Reset(s)) == Reset(s)
  {
  }

  /** Two states reset to the same state exactly when they agree on the location and the suggestions. */
  lemma ResetKeepsOnlyLocationAndSuggestions(s: FormState, t: FormState)
    ensures Reset(s) == Reset(t) <==> s.location == t.location && s.suggestions == t.suggestions
  {
  }

  /** From a fresh start, resetting changes nothing; a reset state is the initial one as soon as location and suggestions are empty. */
  lemma ResetOfInitial(s: FormState)
    ensures Reset(Initial) == Initial
    ensures Reset(s) == Initial <==> s.location == "" && s.suggestions == []
  {
  }

  /** Going back after moving on from steps 1 to 3 returns to the same page with the suggestions gone. */
  lemma PreviousUndoesNext(s: FormState)
    requires s.Valid() && s.currentStep < 4
    ensures Previous(Next(s)) == s.(suggestions := [])
  {
  }

  /** Moving on after going back from steps 2 to 4 returns to the same page with the suggestions gone. */
  lemma NextUndoesPrevious(s: FormState)
    requires s.Valid() && s.currentStep > 1
    ensures Next(Previous(s)) == s.(suggestions := [])
  {
  }

  /** The state after `k` presses of the next button. */
  function Advance(s: FormState, k: nat): (r: FormState)
    requires s.Valid()
    ensures r.Valid()
    decreases k
  {
    if k == 0 then s else Advance(Next(s), k - 1)
  }

  /**
   The first `4 - step` presses each move one page on and leave the
   dashboard as it was; fields other than the step and the suggestions keep
   their values.
   */
  lemma {:induction false} AdvanceWithinForm(s: FormState, k: nat)
    requires s.Valid() && k <= 4 - s.currentStep
    decreases k
    ensures Advance(s, k).currentStep == s.currentStep + k
    ensures Advance(s, k).showDashboard == s.showDashboard
    ensures Advance(s, k).(currentStep := s.currentStep, suggestions := s.suggestions) == s
  {
    if k > 0 {
      AdvanceWithinForm(Next(s), k - 1);
    }
  }

  /**
   From step `n`, exactly `5 - n` presses open the dashboard: the form
   stays on step 4 and never reaches a fifth page.
   */
  lemma {:induction false} AdvanceOpensDashboard(s: FormState)
    requires s.Valid() && !s.showDashboard
    ensures Advance(s, 5 - s.currentStep).showDashboard
    ensures Advance(s, 5 - s.currentStep).currentStep == 4
    ensures forall k :: 0 <= k < 5 - s.currentStep ==> !Advance(s, k).showDashboard
  {
    var n := 4 - s.currentStep;
    AdvanceWithinForm(s, n);
    AdvanceLast(s, n);
    forall k | 0 <= k < 5 - s.currentStep ensures !Advance(s, k).showDashboard {
      AdvanceWithinForm(s, k);
    }
  }

  lemma {:induction false} AdvanceLast(s: FormState, k: nat)
    requires s.Valid()
    ensures Advance(s, k + 1) == Next(Advance(s, k))
    decreases k
  {
    if k > 0 {
      AdvanceLast(Next(s), k - 1);
    }
  }

  /** The width of the progress bar, in percent: a quarter per completed page. */
  function ProgressPercent(step: int): (r: real)
    ensures r == 0.0 <==> step == 1
    ensures 1 <= step <= 4 ==> 0.0 <= r <= 75.0
    ensures r * 4.0 == (step - 1) as real * 100.0
  {
    ((step - 1) as real / 4.0) * 100.0
  }

  /** A later page shows a longer bar. */
  lemma ProgressIncreases(a: int, b: int)
    requires a < b
    ensures ProgressPercent(a) < ProgressPercent(b)
  {
  }

  /** The name the dashboard receives: the title and the name joined by one space. */
  function DashboardName(title: string, name: string): (r: string)
    ensures |r| == |title| + 1 + |name|
    ensures r[..|title|] == title && r[|title|] == ' ' && r[|title| + 1..] == name
  {
    title + " " + name
  }

  // ---------------------------------------------------------------------
  // The component
  // ---------------------------------------------------------------------

  /** The `NameForm` component's state variables and its event handlers. */
  class NameForm {
    var currentStep: int
    var title: string
    var name: string
    var location: string
    var destination: string
    var suggestions: seq<string>
    var travelReason: string
    var showDashboard: bool

    /** The fields as one value. */
    function State(): FormState
      reads this
    {
      FormState(currentStep, title, name, location, destination, travelReason, suggestions, showDashboard)
    }

    ghost predicate Valid()
      reads this
    {
      State().Valid()
    }

    constructor ()
      ensures Valid() && State() == Initial
    {
      currentStep, title, name, location, destination := 1, "", "", "", "";
      suggestions, travelReason, showDashboard := [], "", false;
    }

    /** `handleNext`: the suggestions are dropped, then (after the transition) the page advances or the dashboard opens. */
    method HandleNext()
      requires Valid()
      modifies this
      ensures Valid()
      ensures State() == Next(old(State()))
    {
      suggestions := [];
      if currentStep == 4 {
        showDashboard := true;
      } else {
        currentStep := currentStep + 1;
      }
    }

    /** `handlePrevious`. */
    method HandlePrevious()
      requires Valid()
      modifies this
      ensures Valid()
      ensures State() == Previous(old(State()))
    {
      currentStep := if 1 > currentStep - 1 then 1 else currentStep - 1;
    }

    /** `resetForm`. */
    method ResetForm()
      modifies this
      ensures Valid()
      ensures State() == Reset(old(State()))
    {
      currentStep := 1;
      title := "";
      name := "";
      destination := "";
      travelReason := "";
      showDashboard := false;
    }

    /**
     The route path changed to `pathname` (the effect runs only when the path
     changes, not on every render): the form resets when the new path is the root.
     */
    method PathnameChanged(pathname: string)
      requires Valid()
      modifies this
      ensures Valid()
      ensures State() == if pathname == "/" then Reset(old(State())) else old(State())
    {
      if pathname == "/" {
        ResetForm();
      }
    }

    /** The title drop-down changed. */
    method ChangeTitle(v: string)
      requires Valid() && IsTitleOption(v)
      modifies this
      ensures Valid()
      ensures State() == old(State()).(title := v)
    {
      title := v;
    }

    /** The name field changed. */
    method ChangeName(v: string)
      requires Valid()
      modifies this
      ensures Valid()
      ensures State() == old(State()).(name := v)
    {
      name := v;
    }

    /** The location field changed; the caller then starts a search for `v`. */
    method ChangeLocation(v: string)
      requires Valid()
      modifies this
      ensures Valid()
      ensures State() == old(State()).(location := v)
    {
      location := v;
    }

    /** The destination field changed; the caller then starts a search for `v`. */
    method ChangeDestination(v: string)
      requires Valid()
      modifies this
      ensures Valid()
      ensures State() == old(State()).(destination := v)
    {
      destination := v;
    }

    /** The travel-reason drop-down changed. */
    method ChangeTravelReason(v: string)
      requires Valid() && IsReasonOption(v)
      modifies this
      ensures Valid()
      ensures State() == old(State()).(travelReason := v)
    {
      travelReason := v;
    }

    /** A place search settled (`handleLocationSearch` after its request): the list is replaced wholesale. */
    method LocationSearchSettled(outcome: FetchOutcome)
      requires Valid()
      modifies this
      ensures Valid()
      ensures State() == old(State()).(suggestions := SuggestionsFor(outcome))
    {
      match outcome {
        case Failure =>
          suggestions := [];
        case Success(data) =>
          suggestions := CityDisplayNames(data);
      }
    }

    /** One of the listed suggestions was clicked on the location page. */
    method SelectLocationSuggestion(suggestion: string)
      requires Valid() && suggestion in suggestions
      modifies this
      ensures Valid()
      ensures State() == old(State()).(location := suggestion, suggestions := [])
    {
      location := suggestion;
      suggestions := [];
    }

    /** One of the listed suggestions was clicked on the destination page. */
    method SelectDestinationSuggestion(suggestion: string)
      requires Valid() && suggestion in suggestions
      modifies this
      ensures Valid()
      ensures State() == old(State()).(destination := suggestion, suggestions := [])
    {
      destination := suggestion;
      suggestions := [];
    }

    /** The width of this form's progress bar. */
    function Progress(): (r: real)
      reads this
      requires Valid()
      ensures 0.0 <= r <= 75.0
      ensures r * 4.0 == (currentStep - 1) as real * 100.0
    {
      ProgressPercent(currentStep)
    }
  }
}
