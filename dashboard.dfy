/**
 The dashboard (`Dashboard` in layout.tsx): a greeting chosen by the hour,
 pictures chosen by the place names, three expandable cards and a chat log
 whose reply is a fixed template delivered after a delay.
 */
module Layout {
  import opened Text

  datatype Option<T> = None | Some(value: T)

  // ---------------------------------------------------------------------
  // Greeting
  // ---------------------------------------------------------------------

  /** `getGreeting`, with the clock's hour passed in. */
  function Greeting(hour: int): (r: string)
    ensures r == "Good morning" <==> hour < 12
    ensures r == "Good afternoon" <==> 12 <= hour < 18
    ensures r == "Good evening" <==> 18 <= hour
  {
    if hour < 12 then "Good morning"
    else if hour < 18 then "Good afternoon"
    else "Good evening"
  }

  // ---------------------------------------------------------------------
  // Pictures
  // ---------------------------------------------------------------------

  /** The place names the picture tables look for, in the order they are tried. */
  const CityKeys: seq<string> := ["berlin", "paris", "amsterdam", "lahore", "beijing", "delhi"]

  /** The parts the picture addresses share: the path prefix and the query strings. */
  const PremiumVector := "https://plus.unsplash.com/premium_vector-"
  const FullWidth := "?q=80&w=3600&auto=format&fit=crop&ixlib=rb-4.0.3&ixid=M3wxMjA3fDB8MHxwaG90by1wYWdlfHx8fGVufDB8fHx8fA%3D%3D"
  const NarrowWidth := "?q=80&w=2960&auto=format&fit=crop&ixlib=rb-4.0.3&ixid=M3wxMjA3fDB8MHxwaG90by1wYWdlfHx8fGVufDB8fHx8fA%3D%3D"

  /** The picture identifiers of the six cities, at the positions of `CityKeys`. */
  const CityPictureIds: seq<string> := [
    "1723730925229-3c0e92f2ba78",
    "1697729516485-7dd1c98bfac5",
    "1716196830065-10c4f321a025",
    "1729264578798-6c7f043e6425",
    "1730038645427-f82f741a86c0",
    "1720277559446-52fb4dff1420"
  ]

  /** The picture for each key of `CityKeys`, at the same position; both tables share it. */
  const CityImages: seq<string> := [
    PremiumVector + CityPictureIds[0] + FullWidth,
    PremiumVector + CityPictureIds[1] + FullWidth,
    PremiumVector + CityPictureIds[2] + FullWidth,
    PremiumVector + CityPictureIds[3] + FullWidth,
    PremiumVector + CityPictureIds[4] + FullWidth,
    PremiumVector + CityPictureIds[5] + FullWidth
  ]

  /** The destination picture when no key matches (a narrower rendition than the city pictures). */
  const DefaultDestinationImage := PremiumVector + "1718388092748-68f3b747ac7d" + NarrowWidth

  /** The location picture when no key matches. */
  const DefaultLocationImage := "https://images.unsplash.com/vector-1738932609148-bf277e122443" + FullWidth

  /** No key of the table occurs in `s`. */
  predicate MatchesNoKey(s: string) {
    forall j :: 0 <= j < |CityKeys| ==> !Includes(s, CityKeys[j])
  }

  /** The position of the first key, trying them from `from` on, that occurs in `s`; `|CityKeys|` when none does. */
  function FirstKey(s: string, from: nat): (k: nat)
    requires from <= |CityKeys|
    ensures from <= k <= |CityKeys|
    ensures k < |CityKeys| ==> Includes(s, CityKeys[k])
    ensures forall j :: from <= j < k ==> !Includes(s, CityKeys[j])
    decreases |CityKeys| - from
  {
    if from == |CityKeys| || Includes(s, CityKeys[from]) then from else FirstKey(s, from + 1)
  }

  /**
   The chain of `if (normalized.includes(key)) return url;` tests that both
   picture lookups run on the lowercased place name, ending in `fallback`.
   */
  function ImageFor(place: string, fallback: string): (r: string)
    ensures MatchesNoKey(Lower(place)) ==> r == fallback
    ensures forall j :: 0 <= j < |CityKeys| && Includes(Lower(place), CityKeys[j]) ==>
              (forall i :: 0 <= i < j ==> !Includes(Lower(place), CityKeys[i])) ==> r == CityImages[j]
  {
    var k := FirstKey(Lower(place), 0);
    if k < |CityKeys| then CityImages[k] else fallback
  }

  /** Neither default is one of the city pictures. */
  lemma DefaultsAreNoCityImage()
    ensures DefaultDestinationImage !in CityImages && DefaultLocationImage !in CityImages
  {
    forall k | 0 <= k < |CityImages|
      ensures CityImages[k] != DefaultDestinationImage && CityImages[k] != DefaultLocationImage
    {
      var id := CityPictureIds[k];
      assert |id| == 26 && id[3] != '8';
      MiddleDiffers(PremiumVector, id, FullWidth, "1718388092748-68f3b747ac7d", NarrowWidth);
      assert |CityImages[k]| != |DefaultLocationImage|;
    }
  }

  lemma MiddleDiffers(a: string, x: string, b: string, y: string, c: string)
    requires |x| == |y| && x != y
    ensures a + x + b != a + y + c
  {
    assert (a + x + b)[|a|..|a| + |x|] == x;
    assert (a + y + c)[|a|..|a| + |y|] == y;
  }

  /** `getDestinationImage`. */
  function DestinationImage(destination: string): (r: string)
    ensures r == DefaultDestinationImage <==> MatchesNoKey(Lower(destination))
    ensures r == DefaultDestinationImage || r in CityImages
  {
    DefaultsAreNoCityImage();
    ImageFor(destination, DefaultDestinationImage)
  }

  /** `getLocationImage`. */
  function LocationImage(location: string): (r: string)
    ensures r == DefaultLocationImage <==> MatchesNoKey(Lower(location))
    ensures r == DefaultLocationImage || r in CityImages
  {
    DefaultsAreNoCityImage();
    ImageFor(location, DefaultLocationImage)
  }

  /** The two lookups give the same picture for a name that contains a key, and differ only by their defaults. */
  lemma LookupsAgreeExceptDefault(place: string)
    ensures !MatchesNoKey(Lower(place)) ==> DestinationImage(place) == LocationImage(place)
    ensures MatchesNoKey(Lower(place)) ==>
              DestinationImage(place) == DefaultDestinationImage && LocationImage(place) == DefaultLocationImage
    ensures DefaultDestinationImage != DefaultLocationImage
  {
    var k := FirstKey(Lower(place), 0);
    assert k < |CityKeys| ==> DestinationImage(place) == CityImages[k] == LocationImage(place);
  }

  /** The lookups do not depend on letter case. */
  lemma ImageIgnoresCase(place: string, fallback: string)
    ensures ImageFor(Lower(place), fallback) == ImageFor(place, fallback)
  {
    LowerIdempotent(place);
  }

  // ---------------------------------------------------------------------
  // Cards
  // ---------------------------------------------------------------------

  /** The dashboard shows three cards: before, during and after the trip. */
  const CardCount := 3

  /** Clicking card `index`: it collapses if it was the expanded one, otherwise it becomes the expanded one. */
  function Toggled(expanded: Option<int>, index: int): (r: Option<int>)
    ensures r == None <==> expanded == Some(index)
    ensures r != None ==> r == Some(index)
  {
    if expanded == Some(index) then None else Some(index)
  }

  /** Clicking the same card twice restores the state, when no other card was expanded before. */
  lemma ToggleTwice(expanded: Option<int>, index: int)
    requires expanded == None || expanded == Some(index)
    ensures Toggled(Toggled(expanded, index), index) == expanded
  {
  }

  /** When another card was expanded, two clicks on card `index` leave every card collapsed. */
  lemma ToggleTwiceFromOtherCard(other: int, index: int)
    requires other != index
    ensures Toggled(Toggled(Some(other), index), index) == None
  {
  }

  // ---------------------------------------------------------------------
  // Chat
  // ---------------------------------------------------------------------

  datatype Role = User | System | Loading

  datatype Message = Message(role: Role, content: string)

  /** The log's first entry. */
  const WelcomeMessage := Message(System, "Welcome to your travel assistance. How can I help you?")

  /** The placeholder shown while a reply is pending. */
  const LoadingMessage := Message(Loading, "")

  /** The number of placeholders in `msgs`. */
  function CountLoading(msgs: seq<Message>): (n: nat)
    ensures n <= |msgs|
    ensures n == 0 <==> forall i :: 0 <= i < |msgs| ==> msgs[i].role != Loading
  {
    if msgs == [] then 0 else (if msgs[0].role == Loading then 1 else 0) + CountLoading(msgs[1..])
  }

  /** The log after the submit handler: unchanged for blank text, else the text and a placeholder appended. */
  function Submitted(msgs: seq<Message>, text: string): (r: seq<Message>)
    ensures |msgs| <= |r| && r[..|msgs|] == msgs
    ensures r == msgs <==> Trim(text) == ""
    ensures Trim(text) != "" ==> r[|msgs|..] == [Message(User, text), LoadingMessage]
  {
    if Trim(text) == "" then msgs else msgs + [Message(User, text), LoadingMessage]
  }

  /** The log with every placeholder removed. */
  function WithoutLoading(msgs: seq<Message>): (r: seq<Message>)
    ensures |r| + CountLoading(msgs) == |msgs|
    ensures forall i :: 0 <= i < |r| ==> r[i].role != Loading
    ensures forall m :: m in r <==> m in msgs && m.role != Loading
  {
    if msgs == [] then []
    else (if msgs[0].role == Loading then [] else [msgs[0]]) + WithoutLoading(msgs[1..])
  }

  /** Removing placeholders distributes over concatenation, so the other entries keep their order. */
  lemma {:induction false} WithoutLoadingAppend(a: seq<Message>, b: seq<Message>)
    ensures WithoutLoading(a + b) == WithoutLoading(a) + WithoutLoading(b)
  {
    if a == [] {
      assert a + b == b;
    } else {
      assert (a + b)[0] == a[0];
      assert (a + b)[1..] == a[1..] + b;
      WithoutLoadingAppend(a[1..], b);
    }
  }

  /** A log without placeholders is left as it is. */
  lemma {:induction false} WithoutLoadingKeepsPlainLog(msgs: seq<Message>)
    requires CountLoading(msgs) == 0
    ensures WithoutLoading(msgs) == msgs
  {
    if msgs != [] {
      assert msgs[0].role != Loading;
      assert CountLoading(msgs[1..]) == 0;
      WithoutLoadingKeepsPlainLog(msgs[1..]);
    }
  }

  const ReplyPrefix := "Thanks for your message about "
  const ReplyMiddle := ". Our team will help you with your "
  const ReplySuffix := " trip."

  /** The templated reply; the destination and the reason can be read back from fixed positions. */
  function ReplyText(destination: string, travelReason: string): (r: string)
    ensures |r| == 71 + |destination| + |travelReason|
    ensures r[30..30 + |destination|] == destination
    ensures r[|r| - 6 - |travelReason|..|r| - 6] == travelReason
  {
    ReplyPrefix + destination + ReplyMiddle + travelReason + ReplySuffix
  }

  /** The log after the delayed reply: no placeholder left, everything else in order, one reply appended. */
  function Replied(msgs: seq<Message>, destination: string, travelReason: string): (r: seq<Message>)
    ensures |r| >= 1 && r[|r| - 1] == Message(System, ReplyText(destination, travelReason))
    ensures CountLoading(r) == 0
    ensures |r| == |msgs| - CountLoading(msgs) + 1
    ensures r[..|r| - 1] == WithoutLoading(msgs)
  {
    WithoutLoading(msgs) + [Message(System, ReplyText(destination, travelReason))]
  }

  /**
   On a log without placeholders, submitting a non-blank text and then
   receiving the reply adds exactly the text and the reply.
   */
  lemma SubmitThenReply(msgs: seq<Message>, text: string, destination: string, travelReason: string)
    requires CountLoading(msgs) == 0 && Trim(text) != ""
    ensures Replied(Submitted(msgs, text), destination, travelReason) ==
            msgs + [Message(User, text), Message(System, ReplyText(destination, travelReason))]
  {
    var u, reply := Message(User, text), Message(System, ReplyText(destination, travelReason));
    assert Submitted(msgs, text) == msgs + [u, LoadingMessage];
    WithoutLoadingAppend(msgs, [u, LoadingMessage]);
    WithoutLoadingKeepsPlainLog(msgs);
    SentPair(u);
    assert WithoutLoading(Submitted(msgs, text)) == msgs + [u];
    AppendTwo(msgs, u, reply);
  }

  lemma AppendTwo<T>(a: seq<T>, x: T, y: T)
    ensures (a + [x]) + [y] == a + [x, y]
  {
  }

  /** The pair a submission appends: one placeholder, and only the text survives its removal. */
  lemma SentPair(m: Message)
    requires m.role == User
    ensures WithoutLoading([m, LoadingMessage]) == [m]
    ensures CountLoading([m, LoadingMessage]) == 1
  {
    assert [m, LoadingMessage][1..] == [LoadingMessage];
    assert [LoadingMessage][1..] == [];
  }

  /** A blank submission changes nothing, whatever the log holds. */
  lemma BlankSubmitIsNoOp(msgs: seq<Message>, text: string)
    requires forall i :: 0 <= i < |text| ==> IsWhiteSpace(text[i])
    ensures Submitted(msgs, text) == msgs
  {
    TrimEmptyIff(text);
  }

  // ---------------------------------------------------------------------
  // The component
  // ---------------------------------------------------------------------

  /** The `Dashboard` component: its properties and its state variables. */
  class Dashboard {
    const name: string
    const location: string
    const destination: string
    const travelReason: string

    var message: string
    var messages: seq<Message>
    var expandedCardIndex: Option<int>

    /** The replies scheduled and not yet delivered: one per non-blank submission. */
    ghost var pendingReplies: nat

    /** Every placeholder has a reply on its way; the expanded card, if any, is one of the three. */
    ghost predicate Valid()
      reads this
    {
      && CountLoading(messages) <= pendingReplies
      && (expandedCardIndex.Some? ==> 0 <= expandedCardIndex.value < CardCount)
    }

    constructor (name: string, location: string, destination: string, travelReason: string)
      ensures Valid()
      ensures this.name == name && this.location == location
      ensures this.destination == destination && this.travelReason == travelReason
      ensures message == "" && messages == [WelcomeMessage] && expandedCardIndex == None
      ensures pendingReplies == 0
    {
      this.name, this.location := name, location;
      this.destination, this.travelReason := destination, travelReason;
      message := "";
      messages := [WelcomeMessage];
      expandedCardIndex := None;
      pendingReplies := 0;
    }

    /** The chat input changed. */
    method ChangeMessage(v: string)
      requires Valid()
      modifies this
      ensures Valid()
      ensures message == v
      ensures messages == old(messages) && expandedCardIndex == old(expandedCardIndex)
      ensures pendingReplies == old(pendingReplies)
    {
      message := v;
    }

    /**
     `handleSubmit` up to its timer: a blank input is ignored; otherwise the
     text and a placeholder are appended, the input is cleared and one reply
     is scheduled.
     */
    method HandleSubmit()
      requires Valid()
      modifies this
      ensures Valid()
      ensures messages == Submitted(old(messages), old(message))
      ensures message == if Trim(old(message)) == "" then old(message) else ""
      ensures pendingReplies == old(pendingReplies) + if Trim(old(message)) == "" then 0 else 1
      ensures expandedCardIndex == old(expandedCardIndex)
    {
      if Trim(message) != "" {
        var userMessage := Message(User, message);
        // the handler's two queued log updates, applied together as React batches them
        messages := messages + [userMessage, LoadingMessage];
        message := "";
        pendingReplies := pendingReplies + 1;
        CountLoadingAppend(old(messages), [userMessage, LoadingMessage]);
        SentPair(userMessage);
      }
    }

    /** The timer set by `handleSubmit` fires: placeholders go, one reply is appended. */
    method DeliverReply()
      requires Valid() && pendingReplies > 0
      modifies this
      ensures Valid()
      ensures messages == Replied(old(messages), destination, travelReason)
      ensures pendingReplies == old(pendingReplies) - 1
      ensures message == old(message) && expandedCardIndex == old(expandedCardIndex)
    {
      var filteredMessages := WithoutLoading(messages);
      messages := filteredMessages + [Message(System, ReplyText(destination, travelReason))];
      pendingReplies := pendingReplies - 1;
    }

    /** Card `index` was clicked. */
    method ClickCard(index: int)
      requires Valid() && 0 <= index < CardCount
      modifies this
      ensures Valid()
      ensures expandedCardIndex == Toggled(old(expandedCardIndex), index)
      ensures messages == old(messages) && message == old(message)
      ensures pendingReplies == old(pendingReplies)
    {
      expandedCardIndex := if expandedCardIndex == Some(index) then None else Some(index);
    }

    /** Once every scheduled reply has arrived, no placeholder is left in the log. */
    lemma NoPlaceholderWhenIdle()
      requires Valid() && pendingReplies == 0
      ensures forall i :: 0 <= i < |messages| ==> messages[i].role != Loading
    {
    }
  }

  lemma {:induction false} CountLoadingAppend(a: seq<Message>, b: seq<Message>)
    ensures CountLoading(a + b) == CountLoading(a) + CountLoading(b)
  {
    if a == [] {
      assert a + b == b;
    } else {
      assert (a + b)[0] == a[0];
      assert (a + b)[1..] == a[1..] + b;
      CountLoadingAppend(a[1..], b);
    }
  }
}
