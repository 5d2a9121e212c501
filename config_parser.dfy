/**
  The filter's configuration validator (utility/config_parser.cc).

  A configuration is a JSON object with up to four sections, `body`, `path`,
  `cookie` and `header`. Each section holds an `include` list or an `exclude`
  list of keys, never both; the `body` section must also name its content type,
  which has to be the form-urlencoded media type. `parseConfig` checks the
  document and writes each section's include flag and key list into a `Config`
  through out-pointers, stopping at the first section that fails, and leaves a
  message in a log string.

  The JSON parser itself is not modelled: a document that fails to parse is the
  value `None`, a parsed document is `Some(j)`.
*/
module ConfigParser {
  import opened Wrappers

  /** The only body content type the filter accepts. */
  const URLENCODED: string := "application/x-www-form-urlencoded"

  const ParseErrorMessage: string := "JSON parse error in configuration"
  const MissingContentTypeMessage: string := "missing content-type field under body"
  const InvalidContentTypeMessage: string :=
    "invalid content type, only application/x-www-form-urlencoded is supported"
  const BothPresentMessage: string := "include and exclude cannot both be present"
  const SuccessLogPrefix: string := "config parsed into context ->"

  /** The part of a parsed JSON document that the validator looks at. */
  datatype Json = Null | Obj(fields: map<string, Json>) | StrList(items: seq<string>) | Str(text: string)

  /** `j[key]`: the member named `key`, or null when there is none. */
  function Member(j: Json, key: string): Json
  {
    if j.Obj? && key in j.fields then j.fields[key] else Null
  }

  /** `j.get<Keys>()`; a value that is not a list of strings reads as no keys. */
  function KeysOf(j: Json): seq<string>
  {
    if j.StrList? then j.items else []
  }

  /** `j.get<std::string>()`; a value that is not a string reads as the empty string. */
  function TextOf(j: Json): string
  {
    if j.Str? then j.text else ""
  }

  /** The include flag and key list that one section of the configuration stores. */
  datatype Section = Section(included: bool, keys: seq<string>)

  /** Which of the four sections an out-pointer designates. */
  datatype SectionName = Body | Path | Cookie | Header

  /** The value held by a `Config` object at one moment. */
  datatype ConfigValue = ConfigValue(contentType: string, body: Section, path: Section, cookie: Section, header: Section)
  {
    function Get(name: SectionName): Section
    {
      match name
      case Body => body
      case Path => path
      case Cookie => cookie
      case Header => header
    }

    /** This value with section `name` replaced by `s`. */
    function With(name: SectionName, s: Section): (r: ConfigValue)
      ensures r.Get(name) == s && r.contentType == contentType
      ensures forall other :: other != name ==> r.Get(other) == Get(other)
    {
      match name
      case Body => this.(body := s)
      case Path => this.(path := s)
      case Cookie => this.(cookie := s)
      case Header => this.(header := s)
    }
  }

  /** "include: " or "exclude: ", the start of a section's description. */
  function Prefix(included: bool): string
  {
    if included then "include: " else "exclude: "
  }

  /** Every key followed by ", ", in list order. */
  function Listing(keys: seq<string>): string
  {
    if keys == [] then "" else keys[0] + ", " + Listing(keys[1..])
  }

  /** What `config_field_to_string` returns for a section. */
  function FieldText(s: Section): string
  {
    Prefix(s.included) + Listing(s.keys)
  }

  /** What `Config::to_string` returns. The path section is not part of it. */
  function Describe(c: ConfigValue): string
  {
    "config: " + c.contentType
    + ("\nbody " + FieldText(c.body))
    + ("\nheaders " + FieldText(c.header))
    + ("\ncookies " + FieldText(c.cookie))
  }

  /** Appending one key appends that key and its separator, and nothing else. */
  lemma {:induction false} ListingSnoc(keys: seq<string>, k: string)
    ensures Listing(keys + [k]) == Listing(keys) + k + ", "
  {
    if keys != [] {
      assert (keys + [k])[1..] == keys[1..] + [k];
      ListingSnoc(keys[1..], k);
    }
  }

  /** The loop step of `FieldToString`: appending the next key extends the listing of the keys so far. */
  lemma ListingStep(prefix: string, keys: seq<string>, i: nat)
    requires i < |keys|
    ensures prefix + Listing(keys[..i]) + keys[i] + ", " == prefix + Listing(keys[..i + 1])
  {
    ListingSnoc(keys[..i], keys[i]);
    assert keys[..i + 1] == keys[..i] + [keys[i]];
  }

  /** A section with no keys is described by its prefix alone. */
  lemma EmptySectionText(included: bool)
    ensures FieldText(Section(included, [])) == (if included then "include: " else "exclude: ")
  {
  }

  /** The description never depends on the path section. */
  lemma DescribeIgnoresPath(c: ConfigValue, p: Section)
    ensures Describe(c.(path := p)) == Describe(c)
  {
  }

  /** `config_field_to_string`: accumulates the prefix and then each key with ", ". */
  method FieldToString(included: bool, keys: seq<string>) returns (str: string)
    ensures str == Prefix(included) + Listing(keys)
  {
    str := "include: ";
    if !included {
      str := "exclude: ";
    }
    for i := 0 to |keys|
      invariant str == Prefix(included) + Listing(keys[..i])
    {
      ListingStep(Prefix(included), keys, i);
      str := str + keys[i] + ", ";
    }
    assert keys[..|keys|] == keys;
  }

  /** A member is present when it is not null (`!field[key].is_null()`). */
  predicate Present(field: Json, key: string)
  {
    !Member(field, key).Null?
  }

  /** A field fails validation exactly when it carries both lists. */
  predicate Conflicting(field: Json)
  {
    Present(field, "include") && Present(field, "exclude")
  }

  /** What `validate_config_field` does to its out-pointers. */
  datatype Validated = Accepted(section: Section) | Rejected(message: string)

  /**
    The effect of `validate_config_field` on the section it is given:
    a null field and a field with neither list keep the section, a field with
    both lists is rejected, otherwise the one list present is stored.
  */
  function Validate(field: Json, current: Section): Validated
  {
    if field.Null? then Accepted(current)
    else if Conflicting(field) then Rejected(BothPresentMessage)
    else if Present(field, "include") then Accepted(Section(true, KeysOf(Member(field, "include"))))
    else if Present(field, "exclude") then Accepted(Section(false, KeysOf(Member(field, "exclude"))))
    else Accepted(current)
  }

  /**
    The cases of `validate_config_field`: a field is rejected exactly when it
    carries both lists, always with the same message; a null field, or one with
    neither list, keeps the section; otherwise the list present is stored with
    its include flag.
  */
  lemma ValidateCases(field: Json, current: Section)
    ensures Validate(field, current).Rejected? <==> Conflicting(field)
    ensures Validate(field, current).Rejected? ==> Validate(field, current).message == BothPresentMessage
    ensures !Present(field, "include") && !Present(field, "exclude") ==> Validate(field, current) == Accepted(current)
    ensures Present(field, "include") && !Present(field, "exclude") ==>
      Validate(field, current) == Accepted(Section(true, KeysOf(Member(field, "include"))))
    ensures !Present(field, "include") && Present(field, "exclude") ==>
      Validate(field, current) == Accepted(Section(false, KeysOf(Member(field, "exclude"))))
  {
  }

  /** The outcome of `parseConfig`: its return value, the configuration and the log afterwards. */
  datatype Parsed = Parsed(ok: bool, config: ConfigValue, log: string)

  /** The four sections in the order `parseConfig` validates them. */
  function SectionFields(j: Json): seq<(SectionName, Json)>
  {
    [(Body, Member(j, "body")), (Path, Member(j, "path")), (Cookie, Member(j, "cookie")), (Header, Member(j, "header"))]
  }

  /** Validates sections one after the other, storing each, up to the first rejection. */
  function ApplySections(fields: seq<(SectionName, Json)>, c: ConfigValue): Parsed
    decreases |fields|
  {
    if fields == [] then Parsed(true, c, SuccessLogPrefix + Describe(c))
    else
      match Validate(fields[0].1, c.Get(fields[0].0))
      case Rejected(m) => Parsed(false, c, m)
      case Accepted(s) => ApplySections(fields[1..], c.With(fields[0].0, s))
  }

  /**
    `parseConfig` on a document (`None` when the text is not JSON), starting
    from configuration `c`.
  */
  function Parse(parsed: Option<Json>, c: ConfigValue): Parsed
  {
    match parsed
    case None => Parsed(false, c, ParseErrorMessage)
    case Some(j) =>
      var body := Member(j, "body");
      if !body.Null? && !Present(body, "content-type") then Parsed(false, c, MissingContentTypeMessage)
      else if !body.Null? && TextOf(Member(body, "content-type")) != URLENCODED then Parsed(false, c, InvalidContentTypeMessage)
      else ApplySections(SectionFields(j), c)
  }

  predicate DistinctNames(fields: seq<(SectionName, Json)>)
  {
    forall i, j | 0 <= i < j < |fields| :: fields[i].0 != fields[j].0
  }

  /** No field of `fields` designates section `name`. */
  predicate Unnamed(fields: seq<(SectionName, Json)>, name: SectionName)
  {
    forall i | 0 <= i < |fields| :: fields[i].0 != name
  }

  /** Index of the first conflicting field, or |fields| if there is none. */
  function FirstConflict(fields: seq<(SectionName, Json)>): (k: nat)
    ensures k <= |fields|
    ensures forall i | 0 <= i < k :: !Conflicting(fields[i].1)
    ensures k < |fields| ==> Conflicting(fields[k].1)
  {
    if fields == [] then 0
    else if Conflicting(fields[0].1) then 0
    else 1 + FirstConflict(fields[1..])
  }

  /**
    Sections are validated in order and the first conflicting one stops the run:
    every section before it is stored, it and every later section keep their
    old value, and the log names the conflict. With no conflict every section is
    stored and the log describes the resulting configuration.
  */
  lemma {:induction false} ApplySectionsInOrder(fields: seq<(SectionName, Json)>, c: ConfigValue)
    requires DistinctNames(fields)
    ensures var r := ApplySections(fields, c);
      var k := FirstConflict(fields);
      && (r.ok <==> k == |fields|)
      && (r.ok ==> r.log == SuccessLogPrefix + Describe(r.config))
      && (!r.ok ==> r.log == BothPresentMessage)
      && r.config.contentType == c.contentType
      && (forall i | 0 <= i < k :: r.config.Get(fields[i].0) == Validate(fields[i].1, c.Get(fields[i].0)).section)
      && (forall i | k <= i < |fields| :: r.config.Get(fields[i].0) == c.Get(fields[i].0))
      && (forall name | Unnamed(fields, name) :: r.config.Get(name) == c.Get(name))
  {
    if fields != [] {
      var name := fields[0].0;
      match Validate(fields[0].1, c.Get(name))
      case Rejected(m) =>
      case Accepted(s) =>
        var c' := c.With(name, s);
        var rest := fields[1..];
        assert DistinctNames(rest) by {
          forall i, j | 0 <= i < j < |rest| ensures rest[i].0 != rest[j].0 {
            assert rest[i] == fields[i + 1] && rest[j] == fields[j + 1];
          }
        }
        ApplySectionsInOrder(rest, c');
        assert Unnamed(rest, name) by {
          forall i | 0 <= i < |rest| ensures rest[i].0 != name {
            assert rest[i] == fields[i + 1];
          }
        }
        forall other | Unnamed(fields, other) ensures Unnamed(rest, other) {
          forall i | 0 <= i < |rest| ensures rest[i].0 != other {
            assert rest[i] == fields[i + 1];
          }
        }
        forall i | 0 <= i < |rest| ensures c'.Get(rest[i].0) == c.Get(rest[i].0) {
          assert rest[i] == fields[i + 1];
        }
    }
  }

  /** The four sections of a document have distinct names. */
  lemma SectionFieldsDistinct(j: Json)
    ensures DistinctNames(SectionFields(j))
  {
  }

  /** The content type stored in the configuration is never written by `parseConfig`. */
  lemma ParseKeepsContentType(parsed: Option<Json>, c: ConfigValue)
    ensures Parse(parsed, c).config.contentType == c.contentType
  {
    if parsed.Some? {
      SectionFieldsDistinct(parsed.value);
      ApplySectionsInOrder(SectionFields(parsed.value), c);
    }
  }

  /**
    The checks that precede the sections: a document that does not parse, a body
    section without a content type and a body section with any other content
    type all fail with their own message before anything is stored.
  */
  lemma ParseRejectsBeforeWriting(parsed: Option<Json>, c: ConfigValue)
    ensures parsed.None? ==> Parse(parsed, c) == Parsed(false, c, ParseErrorMessage)
    ensures parsed.Some? && Present(parsed.value, "body") && !Present(Member(parsed.value, "body"), "content-type")
      ==> Parse(parsed, c) == Parsed(false, c, MissingContentTypeMessage)
    ensures parsed.Some? && Present(parsed.value, "body") && Present(Member(parsed.value, "body"), "content-type")
      && TextOf(Member(Member(parsed.value, "body"), "content-type")) != URLENCODED
      ==> Parse(parsed, c) == Parsed(false, c, InvalidContentTypeMessage)
  {
  }

  /** The JSON section that stores `s`. */
  function RenderSection(s: Section): Json
  {
    Obj(map[(if s.included then "include" else "exclude") := StrList(s.keys)])
  }

  /** The JSON body section that stores `s`, with its required content type. */
  function RenderBody(s: Section): Json
  {
    Obj(map["content-type" := Str(URLENCODED), (if s.included then "include" else "exclude") := StrList(s.keys)])
  }

  /** A configuration document whose four sections are those of `c`. */
  function Render(c: ConfigValue): Json
  {
    Obj(map["body" := RenderBody(c.body), "path" := RenderSection(c.path),
            "cookie" := RenderSection(c.cookie), "header" := RenderSection(c.header)])
  }

  /** Validating a rendered section stores exactly that section, whatever was there. */
  lemma ValidateRendered(s: Section, current: Section)
    ensures Validate(RenderSection(s), current) == Accepted(s)
    ensures Validate(RenderBody(s), current) == Accepted(s)
  {
    assert "include" != "exclude" by { assert "include"[0] != "exclude"[0]; }
    assert "content-type" != "include" && "content-type" != "exclude";
  }

  /**
    Round trip: parsing the rendering of a configuration succeeds and stores all
    four of its sections, whatever the configuration held before; only the
    content type, which parsing never writes, is kept from before.
  */
  lemma ParseRenderRoundTrip(c: ConfigValue, before: ConfigValue)
    ensures Parse(Some(Render(c)), before).ok
    ensures Parse(Some(Render(c)), before).config == c.(contentType := before.contentType)
  {
    var j := Render(c);
    assert "body" != "path" && "body" != "cookie" && "body" != "header" by {
      assert "body"[0] != "path"[0] && "body"[0] != "cookie"[0] && "body"[0] != "header"[0];
    }
    assert "path" != "cookie" && "path" != "header" && "cookie" != "header" by {
      assert "path"[0] != "cookie"[0] && "path"[0] != "header"[0] && "cookie"[0] != "header"[0];
    }
    assert Member(j, "body") == RenderBody(c.body);
    assert Member(j, "path") == RenderSection(c.path);
    assert Member(j, "cookie") == RenderSection(c.cookie);
    assert Member(j, "header") == RenderSection(c.header);
    assert Member(RenderBody(c.body), "content-type") == Str(URLENCODED);
    ValidateRendered(c.body, before.body);
    ValidateRendered(c.path, before.path);
    ValidateRendered(c.cookie, before.cookie);
    ValidateRendered(c.header, before.header);
    var fields := SectionFields(j);
    var c1 := before.With(Body, c.body);
    var c2 := c1.With(Path, c.path);
    var c3 := c2.With(Cookie, c.cookie);
    var c4 := c3.With(Header, c.header);
    assert ApplySections(fields, before) == ApplySections(fields[1..], c1);
    assert ApplySections(fields[1..], c1) == ApplySections(fields[2..], c2);
    assert ApplySections(fields[2..], c2) == ApplySections(fields[3..], c3);
    assert ApplySections(fields[3..], c3) == ApplySections(fields[4..], c4);
    assert c4 == c.(contentType := before.contentType);
  }

  /** The C++ `Config` structure, whose fields `parseConfig` writes in place. */
  class Config {
    var contentType: string
    var bodyInclude: bool
    var body: seq<string>
    var pathInclude: bool
    var path: seq<string>
    var cookieInclude: bool
    var cookies: seq<string>
    var headerInclude: bool
    var headers: seq<string>

    constructor (v: ConfigValue)
      ensures Snapshot() == v
    {
      contentType := v.contentType;
      bodyInclude, body := v.body.included, v.body.keys;
      pathInclude, path := v.path.included, v.path.keys;
      cookieInclude, cookies := v.cookie.included, v.cookie.keys;
      headerInclude, headers := v.header.included, v.header.keys;
    }

    /** The configuration this object currently holds. */
    function Snapshot(): ConfigValue
      reads this
    {
      ConfigValue(contentType, Section(bodyInclude, body), Section(pathInclude, path),
                  Section(cookieInclude, cookies), Section(headerInclude, headers))
    }

    /** Writes through the pair of out-pointers `&<section>_include`, `&<section>s`. */
    method Store(which: SectionName, included: bool, keys: seq<string>)
      modifies this
      ensures Snapshot() == old(Snapshot()).With(which, Section(included, keys))
    {
      match which
      case Body => bodyInclude, body := included, keys;
      case Path => pathInclude, path := included, keys;
      case Cookie => cookieInclude, cookies := included, keys;
      case Header => headerInclude, headers := included, keys;
    }

    /** `Config::to_string`: the path description is built and then dropped. */
    method ToString() returns (s: string)
      ensures s == Describe(Snapshot())
    {
      var bodyStr := FieldToString(bodyInclude, body);
      bodyStr := "\nbody " + bodyStr;
      var pathStr := FieldToString(pathInclude, path);
      pathStr := "\npath " + pathStr;
      var headerStr := FieldToString(headerInclude, headers);
      headerStr := "\nheaders " + headerStr;
      var cookieStr := FieldToString(cookieInclude, cookies);
      cookieStr := "\ncookies " + cookieStr;
      s := "config: " + contentType + bodyStr + headerStr + cookieStr;
    }
  }

  /**
    `validate_config_field`: `which` designates the section whose include flag and
    keys the out-pointers address, `log` is the log string before the call.
  */
  method ValidateConfigField(field: Json, config: Config, which: SectionName, log: string)
    returns (ok: bool, newLog: string)
    modifies config
    ensures var v := Validate(field, old(config.Snapshot()).Get(which));
      && ok == v.Accepted?
      && newLog == (if v.Accepted? then log else v.message)
      && config.Snapshot() == (if v.Accepted? then old(config.Snapshot()).With(which, v.section) else old(config.Snapshot()))
  {
    if field.Null? {
      return true, log;
    }
    if Present(field, "include") && Present(field, "exclude") {
      return false, BothPresentMessage;
    }
    if Present(field, "include") {
      config.Store(which, true, KeysOf(Member(field, "include")));
    }
    if Present(field, "exclude") {
      config.Store(which, false, KeysOf(Member(field, "exclude")));
    }
    return true, log;
  }

  /**
    `parseConfig`: `parsed` is the result of parsing the configuration text
    (`None` for a parse error), `log` the log string before the call.
  */
  method ParseConfig(parsed: Option<Json>, config: Config, log: string) returns (ok: bool, newLog: string)
    modifies config
    ensures Parse(parsed, old(config.Snapshot())) == Parsed(ok, config.Snapshot(), newLog)
  {
    if parsed.None? {
      return false, ParseErrorMessage;
    }
    var j := parsed.value;
    ghost var fields := SectionFields(j);
    ghost var start := config.Snapshot();
    newLog := log;

    var queryParam := Member(j, "body");
    if !queryParam.Null? {
      if !Present(queryParam, "content-type") {
        return false, MissingContentTypeMessage;
      }
      var contentType := TextOf(Member(queryParam, "content-type"));
      if contentType != URLENCODED {
        return false, InvalidContentTypeMessage;
      }
      ok, newLog := ValidateConfigField(queryParam, config, Body, newLog);
      if !ok {
        return false, newLog;
      }
    }
    assert Parse(parsed, start) == ApplySections(fields[1..], config.Snapshot());

    ok, newLog := ValidateConfigField(Member(j, "path"), config, Path, newLog);
    if !ok {
      return false, newLog;
    }
    assert Parse(parsed, start) == ApplySections(fields[2..], config.Snapshot());

    ok, newLog := ValidateConfigField(Member(j, "cookie"), config, Cookie, newLog);
    if !ok {
      return false, newLog;
    }
    assert Parse(parsed, start) == ApplySections(fields[3..], config.Snapshot());

    ok, newLog := ValidateConfigField(Member(j, "header"), config, Header, newLog);
    if !ok {
      return false, newLog;
    }
    assert Parse(parsed, start) == ApplySections(fields[4..], config.Snapshot());

    var description := config.ToString();
    return true, SuccessLogPrefix + description;
  }
}
