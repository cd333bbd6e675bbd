/** Keyword extraction from a job description: the description (cut to
    1500 characters) goes to a language model, the first '{' to the last
    '}' of the reply is parsed as JSON, the four default keys are copied
    out of it, and their values are flattened into one keyword list, with a
    fixed fallback list when that is empty or anything raises.

    The model call and `json.loads` are parameters: the model's reply, or
    None when the call (or reading its content) raises; and what
    `json.loads` makes of a text. */
module Extract {
  import opened Wrappers
  import opened Json
  import PyStr

  /** The keys of DEFAULT_KEYS, in their order. */
  const KeyOrder: seq<string> := ["job_titles", "skills", "location", "companies"]

  const MaxJdChars: nat := 1500

  /** The fallback keyword list. */
  const FallbackKeywords: seq<Json> :=
    [JStr("Software Engineer"), JStr("Python"), JStr("Machine Learning"), JStr("AI"), JStr("Data")]

  /** The structured result. Its keys are always the four default keys
      (it starts as a copy of the defaults and only those keys are ever
      assigned), so it is a record with one field per key. */
  datatype Structured = Structured(jobTitles: Json, skills: Json, location: Json, companies: Json)

  /** `extracted_data[KeyOrder[i]]` */
  function Field(d: Structured, i: int): Json
    requires 0 <= i < |KeyOrder|
  {
    if i == 0 then d.jobTitles else if i == 1 then d.skills else if i == 2 then d.location else d.companies
  }

  /** `extracted_data[KeyOrder[i]] = v` */
  function WithField(d: Structured, i: int, v: Json): (d': Structured)
    requires 0 <= i < |KeyOrder|
    ensures Field(d', i) == v
    ensures forall j :: 0 <= j < |KeyOrder| && j != i ==> Field(d', j) == Field(d, j)
  {
    if i == 0 then d.(jobTitles := v) else if i == 1 then d.(skills := v)
    else if i == 2 then d.(location := v) else d.(companies := v)
  }

  /** `DEFAULT_KEYS.copy()`: each key with an empty list. */
  const Defaults: Structured := Structured(JArr([]), JArr([]), JArr([]), JArr([]))

  /** What `json.loads` gives: a JSONDecodeError, a dict, or some other
      JSON value (on which `.get` raises AttributeError). */
  datatype Loaded = DecodeError | Dict(fields: map<string, Json>) | NotDict

  type Parser = string -> Loaded

  /** The description as sent: the first 1500 characters, with "..." added
      when something was cut. */
  function Truncate(jd: string): (t: string)
    ensures |jd| <= MaxJdChars ==> t == jd
    ensures |jd| > MaxJdChars ==> t == jd[..MaxJdChars] + "..." && |t| == MaxJdChars + 3
  {
    PyStr.SliceTo(jd, MaxJdChars) + (if |jd| > MaxJdChars then "..." else "")
  }

  const PromptHead: string := "\n    Extract search terms from this job description for finding LinkedIn profiles.\n    Focus on: job titles, required skills, technologies, location, company names.\n\n    Job Description: "

  const PromptTail: string := "\n\n    Return ONLY a JSON object like this:\n    {\"job_titles\": [], \"skills\": [], \"location\": [], \"companies\": []}\n    "

  /** The prompt around the (truncated) description. */
  function Prompt(t: string): string {
    PromptHead + t + PromptTail
  }

  /** The description sent is the prompt's text right after its fixed
      head. */
  lemma PromptHoldsDescription(t: string)
    ensures PyStr.OccursAt(Prompt(t), t, |PromptHead|)
  {
    var p := Prompt(t);
    assert p[|PromptHead|..|PromptHead| + |t|] == t;
  }

  /** `result[result.find("{"):result.rfind("}") + 1]` when both braces are
      present (empty when the last '}' comes before the first '{'); None
      when either is missing. */
  function JsonSlice(reply: string): (r: Option<string>)
    ensures r.Some? <==> PyStr.Find(reply, "{") >= 0 && PyStr.RFind(reply, "}") >= 0
  {
    var start := PyStr.Find(reply, "{");
    var end := PyStr.RFind(reply, "}") + 1;
    if start != -1 && end != 0 then
      if start < end then Some(reply[start..end]) else Some([])
    else None
  }

  /** The slice exists exactly when the reply has a '{' and a '}'; a
      non-empty slice runs from the first '{' to the last '}'; the slice is
      empty exactly when the last '}' comes before the first '{' (and
      `json.loads` then sees ""). */
  lemma JsonSliceShape(reply: string)
    ensures var r := JsonSlice(reply);
            var start, last := PyStr.Find(reply, "{"), PyStr.RFind(reply, "}");
            && (r.Some? <==> start >= 0 && last >= 0)
            && (r.Some? && r.value != [] ==>
                  r.value[0] == '{' && r.value[|r.value| - 1] == '}'
                  && PyStr.OccursAt(reply, r.value, start)
                  && |r.value| == last + 1 - start)
            && (r.Some? ==> (r.value == [] <==> last < start))
  {
    var start := PyStr.Find(reply, "{");
    var end := PyStr.RFind(reply, "}") + 1;
    PyStr.FindFirstOccurrence(reply, "{");
    PyStr.RFindLastOccurrence(reply, "}");
    if start != -1 && end != 0 && start < end {
      var v := reply[start..end];
      assert v[0] == reply[start..start + 1][0];
      assert v[|v| - 1] == reply[end - 1..end][0];
    }
  }

  /** What `list.extend(v)` adds: a list's items, a string's characters, an
      object's keys; None for anything else (a TypeError). */
  function Iterate(v: Json): (r: Option<seq<Json>>)
    ensures r.None? <==> v.JNull? || v.JBool? || v.JNum?
    ensures v.JArr? ==> r == Some(v.items)
  {
    match v
    case JArr(items) => Some(items)
    case JStr(s) => Some(seq(|s|, i requires 0 <= i < |s| => JStr([s[i]])))
    case JObj(members) => Some(seq(|members|, i requires 0 <= i < |members| => JStr(members[i].0)))
    case _ => None
  }

  /** Extending by a string adds its characters one by one; extending by
      an object adds its keys, in order. */
  lemma IterateTexts(v: Json)
    ensures v.JStr? ==> Iterate(v).Some? && |Iterate(v).value| == |v.s|
                        && forall i :: 0 <= i < |v.s| ==> Iterate(v).value[i] == JStr([v.s[i]])
    ensures v.JObj? ==> Iterate(v).Some? && |Iterate(v).value| == |v.members|
                        && forall i :: 0 <= i < |v.members| ==> Iterate(v).value[i] == JStr(v.members[i].0)
  {
  }

  /** `data.get(key, [])` */
  function GetOrEmpty(data: map<string, Json>, key: string): Json {
    if key in data then data[key] else JArr([])
  }

  /** The structured result after the copy loop: each default key's value
      in the parsed dict, or [] when it has none; other keys are dropped. */
  function CopyKeys(data: map<string, Json>): (d: Structured)
    ensures forall i :: 0 <= i < |KeyOrder| ==> Field(d, i) == GetOrEmpty(data, KeyOrder[i])
  {
    Structured(GetOrEmpty(data, KeyOrder[0]), GetOrEmpty(data, KeyOrder[1]),
               GetOrEmpty(data, KeyOrder[2]), GetOrEmpty(data, KeyOrder[3]))
  }

  /** The structured result for a model reply: a parsed dict's four keys,
      or the defaults when no braces were found or the text did not
      decode; None when the parsed value is not a dict (the `.get` call
      raises). */
  function Structure(reply: string, parse: Parser): Option<Structured> {
    var text := JsonSlice(reply);
    if text.None? then Some(Defaults)
    else
      match parse(text.value)
      case DecodeError => Some(Defaults)
      case Dict(fields) => Some(CopyKeys(fields))
      case NotDict => None
  }

  /** The values of the first `n` keys, flattened in order; None when one
      of them is not iterable. */
  function FlattenUpTo(d: Structured, n: nat): Option<seq<Json>>
    requires n <= |KeyOrder|
  {
    if n == 0 then Some([])
    else
      var before := FlattenUpTo(d, n - 1);
      var last := Iterate(Field(d, n - 1));
      if before.None? || last.None? then None else Some(before.value + last.value)
  }

  /** All four values flattened. */
  function Flatten(d: Structured): Option<seq<Json>> {
    FlattenUpTo(d, |KeyOrder|)
  }

  /** The flattened list is the job titles, then the skills, then the
      location, then the companies, and it exists exactly when each of
      them is iterable. */
  lemma FlattenOrder(d: Structured)
    ensures var f := Flatten(d);
            var t, s, l, c := Iterate(d.jobTitles), Iterate(d.skills), Iterate(d.location), Iterate(d.companies);
            (f.Some? <==> t.Some? && s.Some? && l.Some? && c.Some?)
            && (f.Some? ==> f.value == t.value + s.value + l.value + c.value)
  {
    var t, s, l, c := Iterate(d.jobTitles), Iterate(d.skills), Iterate(d.location), Iterate(d.companies);
    var f1, f2, f3 := FlattenUpTo(d, 1), FlattenUpTo(d, 2), FlattenUpTo(d, 3);
    assert f1 == if t.None? then None else Some(t.value) by {
      assert FlattenUpTo(d, 0) == Some([]);
      if t.Some? {
        assert [] + t.value == t.value;
      }
    }
    assert f2 == if f1.None? || s.None? then None else Some(f1.value + s.value);
    assert f3 == if f2.None? || l.None? then None else Some(f2.value + l.value);
  }

  /** The pair returned: the structured dict and the keyword list. */
  datatype Extraction = Extraction(structured: Structured, keywords: seq<Json>)

  /** The result of the exception handler. */
  function Failed(maxKeywords: int): Extraction {
    Extraction(Defaults, PyStr.SliceTo(FallbackKeywords, maxKeywords))
  }

  /** What `extract_keywords_from_jd` returns: for a blank description the
      defaults and no keywords; otherwise what the model's reply gives. */
  function Extracted(jd: string, maxKeywords: int, llm: string -> Option<string>, parse: Parser): Extraction {
    if PyStr.Strip(jd) == [] then Extraction(Defaults, [])
    else FromResponse(llm(Prompt(Truncate(jd))), maxKeywords, parse)
  }

  /** The rest of the `try` block, from the model's reply: the defaults
      and the fallback list when the call raised or the parsed value is not
      a dict; otherwise what the structured dict read from the stripped
      reply gives. */
  function FromResponse(response: Option<string>, maxKeywords: int, parse: Parser): Extraction {
    if response.None? then Failed(maxKeywords)
    else
      var d := Structure(PyStr.Strip(response.value), parse);
      if d.None? then Failed(maxKeywords) else Finish(d.value, Flatten(d.value), maxKeywords)
  }

  /** The end of the `try` block, for the structured dict `d` and its
      flattened values: the defaults and the fallback list when a value was
      not iterable; otherwise `d` and the values (the fallback list when
      they are empty), cut to `maxKeywords`. */
  function Finish(d: Structured, flat: Option<seq<Json>>, maxKeywords: int): Extraction {
    if flat.None? then Failed(maxKeywords)
    else Extraction(d, PyStr.SliceTo(if flat.value == [] then FallbackKeywords else flat.value, maxKeywords))
  }

  /** A blank description gives the defaults and no keywords, whatever the
      model would say. */
  lemma BlankGivesDefaults(jd: string, maxKeywords: int, llm: string -> Option<string>, parse: Parser)
    requires PyStr.IsBlank(jd)
    ensures Extracted(jd, maxKeywords, llm, parse) == Extraction(Defaults, [])
  {
    PyStr.StripEmptyIffBlank(jd);
  }

  /** At most `maxKeywords` keywords are returned. */
  lemma ExtractedBound(jd: string, maxKeywords: int, llm: string -> Option<string>, parse: Parser)
    requires maxKeywords >= 0
    ensures |Extracted(jd, maxKeywords, llm, parse).keywords| <= maxKeywords
  {
    if PyStr.Strip(jd) != [] {
      var response := llm(Prompt(Truncate(jd)));
      if response.Some? {
        var d := Structure(PyStr.Strip(response.value), parse);
        if d.Some? {
          FinishBound(d.value, Flatten(d.value), maxKeywords);
        }
      }
    }
  }

  lemma FinishBound(d: Structured, flat: Option<seq<Json>>, maxKeywords: int)
    requires maxKeywords >= 0
    ensures |Finish(d, flat, maxKeywords).keywords| <= maxKeywords
  {
  }

  /** For a description that is not blank the keyword list is never empty
      (when at least one keyword is asked for): the fallback list stands in
      for a failed call, a reply without keywords and a malformed value. */
  lemma NeverEmptyForRealDescription(jd: string, maxKeywords: int, llm: string -> Option<string>, parse: Parser)
    requires !PyStr.IsBlank(jd) && maxKeywords >= 1
    ensures Extracted(jd, maxKeywords, llm, parse).keywords != []
  {
    PyStr.StripEmptyIffBlank(jd);
    ResponseNeverEmpty(llm(Prompt(Truncate(jd))), maxKeywords, parse);
  }

  /** Whatever the model replies, the keyword list is not empty. */
  lemma ResponseNeverEmpty(response: Option<string>, maxKeywords: int, parse: Parser)
    requires maxKeywords >= 1
    ensures FromResponse(response, maxKeywords, parse).keywords != []
  {
    if response.Some? {
      var d := Structure(PyStr.Strip(response.value), parse);
      if d.Some? {
        FinishNeverEmpty(d.value, Flatten(d.value), maxKeywords);
      }
    }
  }

  /** The last step never returns an empty list when a keyword is asked
      for. */
  lemma FinishNeverEmpty(d: Structured, flat: Option<seq<Json>>, maxKeywords: int)
    requires maxKeywords >= 1
    ensures Finish(d, flat, maxKeywords).keywords != []
  {
  }

  /** A reply whose braces hold a dict with the four keys, each a list,
      yields those lists as the structured result and, in key order, as
      the keywords. */
  lemma WellFormedReply(reply: string, maxKeywords: int, parse: Parser, fields: map<string, Json>,
                        titles: seq<Json>, skills: seq<Json>, location: seq<Json>, companies: seq<Json>)
    requires JsonSlice(PyStr.Strip(reply)).Some?
    requires parse(JsonSlice(PyStr.Strip(reply)).value) == Dict(fields)
    requires KeyOrder[0] in fields && fields[KeyOrder[0]] == JArr(titles)
    requires KeyOrder[1] in fields && fields[KeyOrder[1]] == JArr(skills)
    requires KeyOrder[2] in fields && fields[KeyOrder[2]] == JArr(location)
    requires KeyOrder[3] in fields && fields[KeyOrder[3]] == JArr(companies)
    requires titles + skills + location + companies != []
    ensures FromResponse(Some(reply), maxKeywords, parse)
            == Extraction(Structured(JArr(titles), JArr(skills), JArr(location), JArr(companies)),
                          PyStr.SliceTo(titles + skills + location + companies, maxKeywords))
  {
    var d := CopyKeys(fields);
    assert d == Structured(JArr(titles), JArr(skills), JArr(location), JArr(companies));
    FlattenOrder(d);
  }

  /** `extract_keywords_from_jd`. */
  method ExtractKeywordsFromJd(jd: string, maxKeywords: int, llm: string -> Option<string>, parse: Parser)
    returns (r: Extraction)
    ensures r == Extracted(jd, maxKeywords, llm, parse)
  {
    if PyStr.Strip(jd) == [] {
      return Extraction(Defaults, []);
    }
    var truncated := Truncate(jd);
    var response := llm(Prompt(truncated));
    r := HandleResponse(response, maxKeywords, parse);
  }

  /** The `try` block after the model call. */
  method HandleResponse(response: Option<string>, maxKeywords: int, parse: Parser)
    returns (r: Extraction)
    ensures r == FromResponse(response, maxKeywords, parse)
  {
    if response.None? {
      return Failed(maxKeywords);
    }
    var result := PyStr.Strip(response.value);
    var extracted := ReadReply(result, parse);
    if extracted.None? {
      return Failed(maxKeywords);
    }
    var flat := FlattenKeys(extracted.value);
    r := Conclude(extracted.value, flat, maxKeywords);
  }

  /** The fallback for an empty list and the final cut. */
  method Conclude(extracted: Structured, flat: Option<seq<Json>>, maxKeywords: int) returns (r: Extraction)
    ensures r == Finish(extracted, flat, maxKeywords)
  {
    if flat.None? {
      return Failed(maxKeywords);
    }
    var flattened := flat.value;
    if flattened == [] {
      flattened := flattened + FallbackKeywords;
    }
    r := Extraction(extracted, PyStr.SliceTo(flattened, maxKeywords));
  }

  /** The flatten loop: `flattened_keywords.extend(extracted_data[key])`
      for each key in order; None when an `extend` raises. */
  method FlattenKeys(extracted: Structured) returns (flat: Option<seq<Json>>)
    ensures flat == Flatten(extracted)
  {
    var flattened: seq<Json> := [];
    for i := 0 to |KeyOrder|
      invariant FlattenUpTo(extracted, i) == Some(flattened)
    {
      var items := Iterate(Field(extracted, i));
      if items.None? {
        FlattenStaysFailed(extracted, i + 1);
        return None;
      }
      flattened := flattened + items.value;
    }
    flat := Some(flattened);
  }

  /** Once one value fails to iterate, the whole flattening fails. */
  lemma {:induction false} FlattenStaysFailed(d: Structured, k: nat)
    requires 1 <= k <= |KeyOrder|
    requires FlattenUpTo(d, k).None?
    ensures Flatten(d).None?
    decreases |KeyOrder| - k
  {
    if k < |KeyOrder| {
      FlattenStaysFailed(d, k + 1);
    }
  }

  /** From the stripped reply to the structured dict: the defaults,
      overwritten by the parsed dict's values when the brace slice parses;
      None when `.get` raises. */
  method ReadReply(result: string, parse: Parser) returns (extracted: Option<Structured>)
    ensures extracted == Structure(result, parse)
  {
    var e := Defaults;
    var text := JsonSlice(result);
    if text.Some? {
      var data := parse(text.value);
      if data.NotDict? {
        return None;
      }
      if data.Dict? {
        e := CopyDefaultKeys(e, data.fields);
      }
    }
    extracted := Some(e);
  }

  /** The copy loop: `extracted_data[key] = data.get(key, [])` for each
      default key. */
  method CopyDefaultKeys(extracted: Structured, data: map<string, Json>) returns (e: Structured)
    requires extracted == Defaults
    ensures e == CopyKeys(data)
  {
    e := extracted;
    for i := 0 to |KeyOrder|
      invariant forall j :: 0 <= j < |KeyOrder| ==>
                  Field(e, j) == if j < i then GetOrEmpty(data, KeyOrder[j]) else JArr([])
    {
      e := WithField(e, i, GetOrEmpty(data, KeyOrder[i]));
    }
    assert Field(e, 0) == e.jobTitles && Field(e, 1) == e.skills && Field(e, 2) == e.location && Field(e, 3) == e.companies;
  }
}
