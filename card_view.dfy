/** The page logic of the audio lab: polling the current card and skipping
    it when its id was seen last, rebuilding the field-name select while
    keeping the selection, and the decision of `displayCardInfo` that picks
    the field, applies the pattern and requests the captured file name.
    The user's pattern is compiled and run by the host: its outcome is a
    parameter. */
module CardView {
  import opened Wrappers
  import opened AnkiConnect

  const MSG_FIELD_NOT_FOUND := "Field not found or invalid regex pattern"
  const MSG_NO_MATCH := "No matching audio file found"
  const MSG_AUDIO_LOADED := "Audio file loaded"
  const MSG_AUDIO_NOT_FOUND := "Audio file not found"
  /** What `cardData.fields.hasOwnProperty(...)` throws when the fields have
      an own member of that name. */
  const MSG_FIELDS_NOT_FUNCTION := "TypeError: cardData.fields.hasOwnProperty is not a function"

  /** The property names of an object in `Object.keys` order: each name
      once, where it was first written. */
  function Keys(members: seq<(string, Json)>): (r: seq<string>)
    ensures forall k :: k in r <==> k in Names(members)
    ensures forall i, j :: 0 <= i < j < |r| ==> r[i] != r[j]
  {
    if members == [] then []
    else
      var init := members[..|members| - 1];
      var name := members[|members| - 1].0;
      assert members == init + [members[|members| - 1]];
      assert Names(members) == Names(init) + {name};
      var rest := Keys(init);
      if name in rest then rest else rest + [name]
  }

  /** The outcome of `fieldValue.match(new RegExp(pattern))`: a throw (the
      pattern does not compile, or the field's `value` is not a string and
      has no `match` method), no match (`null`), or the match with its
      capture groups (`None` for an unmatched group), the whole match at
      index 0. */
  datatype MatchOutcome = BadPattern | NoMatch | Matched(groups: seq<Option<string>>)

  /** What `displayCardInfo` ends with. */
  datatype Decision = FieldNotFound | NoAudio | Retrieve(filename: string) | Thrown

  /** The first capture group when it is a non-empty string. */
  function FirstGroup(m: MatchOutcome): (r: Option<string>)
    ensures r.Some? <==> m.Matched? && |m.groups| > 1 && m.groups[1].Some? && m.groups[1].value != ""
    ensures r.Some? ==> r.value == m.groups[1].value && r.value != ""
  {
    if m.Matched? && |m.groups| > 1 && m.groups[1].Some? && m.groups[1].value != "" then Some(m.groups[1].value)
    else None
  }

  /** The branches of `displayCardInfo`: the selected field name, the field
      and the pattern must all be truthy; then the first capture group, when
      non-empty, is the file to retrieve. */
  function Decide(fields: Json, fieldName: string, pattern: string, m: MatchOutcome): (d: Decision)
    ensures d.FieldNotFound? <==>
      fieldName == "" || Get(fields, fieldName).None? || !Truthy(Get(fields, fieldName).value) || pattern == ""
    ensures d.Thrown? <==> !d.FieldNotFound? && m.BadPattern?
    ensures d.Retrieve? <==> !d.FieldNotFound? && FirstGroup(m).Some?
    ensures d.Retrieve? ==> d.filename == FirstGroup(m).value && d.filename != ""
    ensures d.NoAudio? <==> !d.FieldNotFound? && !m.BadPattern? && FirstGroup(m).None?
  {
    var field := Get(fields, fieldName);
    if fieldName != "" && field.Some? && Truthy(field.value) && pattern != "" then
      if m.BadPattern? then Thrown
      else if FirstGroup(m).Some? then Retrieve(FirstGroup(m).value)
      else NoAudio
    else FieldNotFound
  }

  /** The status line `displayCardInfo` writes for a decision it reaches
      without throwing. */
  function DecisionStatus(d: Decision, card: Json): (r: Status)
    requires !d.Thrown?
    ensures d.FieldNotFound? ==> r == Text(MSG_FIELD_NOT_FOUND)
    ensures d.NoAudio? ==> r == Text(MSG_NO_MATCH)
    ensures d.Retrieve? ==> r == Showing("Audio fetched from card with ID ", Get(card, "cardId"), "")
  {
    match d
    case FieldNotFound => Text(MSG_FIELD_NOT_FOUND)
    case NoAudio => Text(MSG_NO_MATCH)
    case Retrieve(_) => Showing("Audio fetched from card with ID ", Get(card, "cardId"), "")
  }

  /** The page: the select's options and value, the pattern input, the
      status line, the card id seen last and the file names requested. */
  class CardPage {
    var options: seq<string>
    var selected: string
    var pattern: string
    var status: Option<Status>
    /** `lastCardId`; `None` is `undefined`, initially `Some(JNull)`. */
    var lastCardId: Option<Json>
    var requested: seq<string>
    /** Calls of `wavesurfer.load`. */
    var loads: nat

    /** The select shows one of its options, or "" when it has none. */
    ghost predicate Valid()
      reads this
    {
      (options == [] ==> selected == "") && (options != [] ==> selected in options)
    }

    constructor()
      ensures Valid() && options == [] && selected == "" && pattern == ""
      ensures status.None? && lastCardId == Some(JNull) && requested == [] && loads == 0
    {
      options := [];
      selected := "";
      pattern := "";
      status := None;
      lastCardId := Some(JNull);
      requested := [];
      loads := 0;
    }

    /** `populateFieldNames(cardData)`: one option per key of the card's
        fields, in key order; the previous selection is kept only when it is
        still a key, otherwise the first option is selected. Fields with an
        own member "hasOwnProperty" make the check throw once the options
        are rebuilt, and the first option stays selected. */
    method PopulateFieldNames(fields: seq<(string, Json)>) returns (r: Result<(), string>)
      modifies this`options, this`selected
      ensures Valid()
      ensures options == Keys(fields)
      ensures "hasOwnProperty" in Names(fields) ==> r == Failure(MSG_FIELDS_NOT_FUNCTION) && selected == options[0]
      ensures "hasOwnProperty" !in Names(fields) ==> r.Success?
      ensures "hasOwnProperty" !in Names(fields) && old(selected) in Names(fields) ==> selected == old(selected)
      ensures "hasOwnProperty" !in Names(fields) && old(selected) !in Names(fields) ==>
        selected == (if options == [] then "" else options[0])
    {
      var current := selected;
      var keys := Keys(fields);
      options := [];
      var i := 0;
      while i < |keys|
        invariant 0 <= i <= |keys|
        invariant options == keys[..i]
      {
        options := options + [keys[i]];
        i := i + 1;
      }
      assert keys[..i] == keys;
      if "hasOwnProperty" in Names(fields) {
        selected := options[0];
        return Failure(MSG_FIELDS_NOT_FUNCTION);
      }
      r := Success(());
      if current in Names(fields) {
        selected := current;
      } else if options == [] {
        selected := "";
      } else {
        selected := options[0];
      }
    }

    /** `displayCardInfo(cardData)` with the outcome of the pattern on the
        field's value: sets the status and, for a captured file name,
        requests it. */
    method DisplayCardInfo(card: Json, m: MatchOutcome)
      modifies this`status, this`requested
      ensures var d := Decide(Fields(card), selected, pattern, m);
        && (d.Thrown? ==> status == old(status))
        && (!d.Thrown? ==> status == Some(DecisionStatus(d, card)))
        && requested == old(requested) + (if d.Retrieve? then [d.filename] else [])
    {
      var d := Decide(Fields(card), selected, pattern, m);
      if !d.Thrown? {
        status := Some(DecisionStatus(d, card));
      }
      if d.Retrieve? {
        requested := requested + [d.filename];
      }
    }

    /** `pollForNewCard()`: fetches the current card; nothing more when the
        result is falsy or has the card id seen last; otherwise records the
        id, rebuilds the field names and displays the card, unless the
        rebuild throws. */
    method Poll(reply: Reply, m: MatchOutcome)
      requires Valid()
      modifies this
      ensures Valid()
      ensures pattern == old(pattern) && loads == old(loads)
      ensures var (card, failure) := FetchCurrentCard(reply);
        !Truthy(card) || SameValue(Get(card, "cardId"), old(lastCardId)) ==>
          && lastCardId == old(lastCardId) && options == old(options) && selected == old(selected)
          && requested == old(requested)
          && status == (if failure.Some? then failure else old(status))
      ensures var (card, _) := FetchCurrentCard(reply);
        var fields := Fields(card).members;
        var fetched := Some(Showing("Card with ID ", Get(card, "cardId"), " fetched"));
        Truthy(card) && !SameValue(Get(card, "cardId"), old(lastCardId)) ==>
          && lastCardId == Get(card, "cardId")
          && options == Keys(fields)
          && ("hasOwnProperty" in Names(fields) ==>
                selected == options[0] && requested == old(requested) && status == fetched)
          && ("hasOwnProperty" !in Names(fields) ==>
                && selected == (if old(selected) in Names(fields) then old(selected) else if options == [] then "" else options[0])
                && var d := Decide(Fields(card), selected, pattern, m);
                   && requested == old(requested) + (if d.Retrieve? then [d.filename] else [])
                   && status == (if d.Thrown? then fetched else Some(DecisionStatus(d, card))))
    {
      var (card, failure) := FetchCurrentCard(reply);
      if failure.Some? {
        status := failure;
      }
      if !Truthy(card) || SameValue(Get(card, "cardId"), lastCardId) {
        return;
      }
      status := Some(Showing("Card with ID ", Get(card, "cardId"), " fetched"));
      lastCardId := Get(card, "cardId");
      var populated := PopulateFieldNames(Fields(card).members);
      if populated.Failure? {
        return;
      }
      DisplayCardInfo(card, m);
    }

    /** `queryAudio()`, run when the select or the pattern changes: fetches
        the current card and displays it when the result is truthy. */
    method QueryAudio(reply: Reply, m: MatchOutcome)
      modifies this`status, this`requested
      ensures var (card, _) := FetchCurrentCard(reply);
        !Truthy(card) ==> requested == old(requested)
    {
      var (card, failure) := FetchCurrentCard(reply);
      if failure.Some? {
        status := failure;
      }
      if Truthy(card) {
        DisplayCardInfo(card, m);
      }
    }

    /** The user picks a field or edits the pattern. */
    method Select(name: string)
      requires Valid() && name in options
      modifies this`selected
      ensures Valid() && selected == name
    {
      selected := name;
    }

    method SetPattern(p: string)
      modifies this`pattern
      ensures pattern == p
    {
      pattern := p;
    }

    /** `retrieveAndPlayAudio(filename)` once "retrieveMediaFile" settles: a
        truthy result is loaded into the player, a falsy one reported as not
        found, a rejection shown as "Error: <reason>". */
    method RetrieveAndPlay(reply: Reply)
      modifies this`status, this`loads
      ensures Invoke(reply).Success? && Truthy(Invoke(reply).value) ==>
        loads == old(loads) + 1 && status == Some(Text(MSG_AUDIO_LOADED))
      ensures Invoke(reply).Success? && !Truthy(Invoke(reply).value) ==>
        loads == old(loads) && status == Some(Text(MSG_AUDIO_NOT_FOUND))
      ensures Invoke(reply).Failure? ==>
        loads == old(loads) && status == Some(Showing("Error: ", Some(Invoke(reply).error), ""))
    {
      match Invoke(reply)
      case Success(result) =>
        if Truthy(result) {
          loads := loads + 1;
          status := Some(Text(MSG_AUDIO_LOADED));
        } else {
          status := Some(Text(MSG_AUDIO_NOT_FOUND));
        }
      case Failure(e) =>
        status := Some(Showing("Error: ", Some(e), ""));
    }
  }

  /** `cardData.fields` as an object; anything else reads as no fields. */
  function Fields(card: Json): (r: Json)
    ensures r.JObject?
    ensures Get(card, "fields").Some? && Get(card, "fields").value.JObject? ==> r == Get(card, "fields").value
  {
    var f := Get(card, "fields");
    if f.Some? && f.value.JObject? then f.value else JObject([])
  }

  /** `a === b` on parsed values: primitives compare by value; two parsed
      arrays or objects are never the same object. */
  predicate SameValue(a: Option<Json>, b: Option<Json>): (r: bool)
    ensures r ==> a == b
    ensures a == b && (a.None? || (!a.value.JArray? && !a.value.JObject?)) ==> r
    ensures a.Some? && (a.value.JArray? || a.value.JObject?) ==> !r
  {
    match (a, b)
    case (None, None) => true
    case (Some(x), Some(y)) => !x.JArray? && !x.JObject? && x == y
    case _ => false
  }

  /** Polling the same card twice displays it once: the second poll finds
      its id already seen and changes nothing but the status of a failed
      request. */
  method PollTwice(page: CardPage, reply: Reply, m: MatchOutcome)
    requires page.Valid()
    requires var card := FetchCurrentCard(reply).0;
      Truthy(card) && (Get(card, "cardId").None? || (!Get(card, "cardId").value.JArray? && !Get(card, "cardId").value.JObject?))
    modifies page
    ensures page.Valid()
    ensures |page.requested| <= |old(page.requested)| + 1
    ensures page.lastCardId == Get(FetchCurrentCard(reply).0, "cardId")
  {
    page.Poll(reply, m);
    ghost var afterFirst := page.requested;
    page.Poll(reply, m);
    assert page.requested == afterFirst;
  }
}
