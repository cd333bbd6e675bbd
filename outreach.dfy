/** Outreach messages: for each scored candidate, a short LinkedIn message
    written by a language model when an API key is configured, or a fixed
    template greeting the candidate by first name otherwise, or when the
    model fails or answers with nothing. The model and the environment
    variable are parameters. */
module Outreach {
  import opened Wrappers
  import PyStr

  /** The keys of a scored candidate that are read; None is a missing key. */
  datatype Prospect = Prospect(name: Option<string>, linkedinUrl: Option<string>,
                               headline: Option<string>, score: Option<int>)

  /** The language model: the message it writes for a candidate and a job
      description, or None when the call raises or the reply has no text. */
  type Writer = (Prospect, string) -> Option<string>

  const Greeting: string := "Hi "
  const ProfileLead: string := ", I came across your profile with headline '"
  const Closing: string :=
    "'. We have an opportunity that aligns with your experience. Would you like to discuss this further?"

  /** `candidate.get("name", "there").split()[0]`; None where Python raises
      IndexError (a name that is blank). A first name is a non-empty run of
      non-whitespace characters. */
  function FirstName(c: Prospect): (r: Option<string>)
    ensures r.Some? ==> r.value != [] && forall k :: 0 <= k < |r.value| ==> !PyStr.IsSpace(r.value[k])
  {
    PyStr.FirstToken(c.name.GetOr("there"))
  }

  /** The first name is missing exactly when a name is given and is blank. */
  lemma FirstNameNoneIffBlank(c: Prospect)
    ensures FirstName(c).None? <==> c.name.Some? && PyStr.IsBlank(c.name.value)
  {
    PyStr.FirstTokenNoneIffBlank(c.name.GetOr("there"));
    if c.name.None? {
      assert !PyStr.IsSpace("there"[0]);
    }
  }

  /** `_basic_message`: the template, with the first name and the headline
      (by default "their experience"); None where the first name raises. */
  function BasicMessage(c: Prospect): (r: Option<string>)
    ensures r.None? <==> FirstName(c).None?
    ensures r.Some? ==> r.value != [] && r.value[0] == 'H'
  {
    match FirstName(c)
    case None => None
    case Some(first) =>
      Some(Greeting + first + ProfileLead + c.headline.GetOr("their experience") + Closing)
  }

  /** The first name is the first word of the name (or of "there"): a
      non-empty run of non-whitespace, preceded in the name only by
      whitespace and followed by whitespace or the end. */
  lemma FirstNameShape(c: Prospect)
    requires FirstName(c).Some?
    ensures var name := c.name.GetOr("there");
            var first := FirstName(c).value;
            var i := |name| - |PyStr.LStrip(name)|;
            && first != [] && PyStr.IsBlank(name[..i]) && PyStr.OccursAt(name, first, i)
            && (forall k :: 0 <= k < |first| ==> !PyStr.IsSpace(first[k]))
            && (i + |first| == |name| || PyStr.IsSpace(name[i + |first|]))
  {
    PyStr.FirstTokenShape(c.name.GetOr("there"));
  }

  /** The template greets the candidate by the first name, the headline
      stands between the quotes and the closing ends the message. */
  lemma BasicMessageShape(c: Prospect)
    requires BasicMessage(c).Some?
    ensures FirstName(c).Some?
    ensures var m := BasicMessage(c).value;
            var head := Greeting + FirstName(c).value + ProfileLead;
            && PyStr.StartsWith(m, head)
            && PyStr.OccursAt(m, c.headline.GetOr("their experience"), |head|)
            && |Closing| <= |m| && m[|m| - |Closing|..] == Closing
  {
    var m := BasicMessage(c).value;
    var head := Greeting + FirstName(c).value + ProfileLead;
    var h := c.headline.GetOr("their experience");
    assert m == head + h + Closing;
    assert m[..|head|] == head;
    assert m[|head|..|head| + |h|] == h;
    assert m[|m| - |Closing|..] == Closing;
  }

  /** `generate_message` of a generator that does (`useGroq`) or does not
      use the model: without the model, the template; with it, the first
      name is read first (so a blank name raises either way), then the
      model's reply with surrounding whitespace removed, or the template
      when the call raises or the stripped reply is empty. */
  function Message(useGroq: bool, c: Prospect, jd: string, writer: Writer): (r: Option<string>)
    ensures r.None? <==> FirstName(c).None?
  {
    if !useGroq then BasicMessage(c)
    else if FirstName(c).None? then None
    else
      match writer(c, jd)
      case None => BasicMessage(c)
      case Some(reply) =>
        var message := PyStr.Strip(reply);
        if message != [] then Some(message) else BasicMessage(c)
  }

  /** A message is produced exactly when the name is missing or not blank,
      whether or not the model is used. */
  lemma MessageNoneIffBlankName(useGroq: bool, c: Prospect, jd: string, writer: Writer)
    ensures Message(useGroq, c, jd, writer).None? <==> c.name.Some? && PyStr.IsBlank(c.name.value)
  {
    FirstNameNoneIffBlank(c);
  }

  /** With the model, a reply that is not blank is the message, stripped of
      leading and trailing whitespace; a raising call or a blank reply falls
      back to the template. */
  lemma ModelReplyUsed(c: Prospect, jd: string, writer: Writer)
    requires FirstName(c).Some?
    ensures writer(c, jd).Some? && !PyStr.IsBlank(writer(c, jd).value) ==>
              Message(true, c, jd, writer) == Some(PyStr.Strip(writer(c, jd).value))
    ensures writer(c, jd).None? || PyStr.IsBlank(writer(c, jd).value) ==>
              Message(true, c, jd, writer) == BasicMessage(c)
  {
    if writer(c, jd).Some? {
      PyStr.StripEmptyIffBlank(writer(c, jd).value);
    }
  }

  /** A message is never blank: it starts with a character that is not
      whitespace. */
  lemma MessageNeverBlank(useGroq: bool, c: Prospect, jd: string, writer: Writer)
    requires Message(useGroq, c, jd, writer).Some?
    ensures var m := Message(useGroq, c, jd, writer).value;
            m != [] && !PyStr.IsSpace(m[0])
  {
    var m := Message(useGroq, c, jd, writer).value;
    if m != BasicMessage(c).GetOr([]) {
      var reply := writer(c, jd).value;
      var l := PyStr.LStrip(reply);
      assert m == PyStr.RStrip(l);
      assert m[0] == l[0];
    }
  }

  /** The outreach generator; `useGroq` is fixed when it is built. */
  class OutreachGenerator {
    /** Whether the language model is used: the API key is set and not
        empty. */
    const useGroq: bool

    constructor (apiKey: Option<string>)
      ensures useGroq <==> apiKey.Some? && apiKey.value != []
    {
      useGroq := apiKey.Some? && apiKey.value != [];
    }

    /** `generate_message`. */
    method GenerateMessage(c: Prospect, jd: string, writer: Writer) returns (r: Option<string>)
      ensures r == Message(useGroq, c, jd, writer)
    {
      if !useGroq {
        return BasicMessage(c);
      }
      var firstName := FirstName(c);
      if firstName.None? {
        return None;
      }
      var response := writer(c, jd);
      if response.None? {
        return BasicMessage(c);
      }
      var message := PyStr.Strip(response.value);
      if message != [] {
        r := Some(message);
      } else {
        r := BasicMessage(c);
      }
    }
  }

  /** One entry of the outreach list. */
  datatype OutreachEntry = OutreachEntry(candidate: Option<string>, linkedinUrl: string, score: int, message: string)

  /** The entry for one candidate: its name (None when missing), its URL
      (by default ""), its score (by default 0) and its message. */
  function EntryOf(c: Prospect, message: string): OutreachEntry {
    OutreachEntry(c.name, c.linkedinUrl.GetOr(""), c.score.GetOr(0), message)
  }

  /** `e` is an entry for `c`: the candidate's name, URL (by default "")
      and score (by default 0), and a message that is not blank; the
      template itself when `templateOnly`. */
  predicate EntryFor(c: Prospect, e: OutreachEntry, templateOnly: bool) {
    && e.candidate == c.name
    && e.linkedinUrl == c.linkedinUrl.GetOr("")
    && e.score == c.score.GetOr(0)
    && e.message != [] && !PyStr.IsSpace(e.message[0])
    && (templateOnly ==> Some(e.message) == BasicMessage(c))
  }

  /** `generate_outreach`: one entry per candidate, in order, whose message
      is what `generate_message` returns for it; a candidate whose message
      raises (a blank name) makes the whole call raise (None). Without an
      API key every message is the template. */
  method GenerateOutreach(candidates: seq<Prospect>, jd: string, apiKey: Option<string>, writer: Writer)
    returns (r: Option<seq<OutreachEntry>>)
    ensures r.None? <==> exists k :: 0 <= k < |candidates| && FirstName(candidates[k]).None?
    ensures r.Some? ==>
              |r.value| == |candidates|
              && forall k :: 0 <= k < |candidates| ==>
                   && Message(apiKey.Some? && apiKey.value != [], candidates[k], jd, writer).Some?
                   && r.value[k] == EntryOf(candidates[k], Message(apiKey.Some? && apiKey.value != [], candidates[k], jd, writer).value)
                   && EntryFor(candidates[k], r.value[k], apiKey.None? || apiKey.value == [])
  {
    var generator := new OutreachGenerator(apiKey);
    var messages: seq<OutreachEntry> := [];
    for i := 0 to |candidates|
      invariant |messages| == i
      invariant forall k :: 0 <= k < i ==> Message(generator.useGroq, candidates[k], jd, writer).Some?
      invariant forall k :: 0 <= k < i ==>
                  messages[k] == EntryOf(candidates[k], Message(generator.useGroq, candidates[k], jd, writer).value)
      invariant forall k :: 0 <= k < i ==> EntryFor(candidates[k], messages[k], !generator.useGroq)
    {
      var c := candidates[i];
      var message := generator.GenerateMessage(c, jd, writer);
      if message.None? {
        return None;
      }
      MessageNeverBlank(generator.useGroq, c, jd, writer);
      messages := messages + [EntryOf(c, message.value)];
    }
    r := Some(messages);
  }
}
