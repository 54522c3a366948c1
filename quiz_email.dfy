/** The lead-capture mail handler: HTML escaping of user-supplied fields, the
    method and validation ladder, and the one or two mails it sends. */
module QuizEmail {
  import Js

  // ---------------------------------------------------------------------
  // HTML escaping
  // ---------------------------------------------------------------------

  /** The five characters the escaper replaces. */
  predicate IsSpecial(c: char)
  {
    c == '&' || c == '<' || c == '>' || c == '"' || c == '\''
  }

  /** The replacement of one character. */
  function EscapeChar(c: char): string
  {
    match c
    case '&' => "&amp;"
    case '<' => "&lt;"
    case '>' => "&gt;"
    case '"' => "&quot;"
    case '\'' => "&#039;"
    case _ => [c]
  }

  /** The escaper: every special character replaced by its entity, every
      other character kept, in order. */
  function Escape(s: string): string
    decreases |s|
  {
    if s == [] then [] else EscapeChar(s[0]) + Escape(s[1..])
  }

  predicate StartsWith(s: string, prefix: string)
  {
    |prefix| <= |s| && s[..|prefix|] == prefix
  }

  /** One of the five entities the escaper produces starts at position i. */
  predicate EntityAt(s: string, i: nat)
    requires i < |s|
  {
    var t := s[i..];
    StartsWith(t, "&amp;") || StartsWith(t, "&lt;") || StartsWith(t, "&gt;")
      || StartsWith(t, "&quot;") || StartsWith(t, "&#039;")
  }

  /** Text that can be interpolated into HTML: no raw `<`, `>`, `"` or `'`,
      and every `&` begins one of the escaper's entities. */
  predicate Safe(s: string)
  {
    forall i :: 0 <= i < |s| ==>
      s[i] != '<' && s[i] != '>' && s[i] != '"' && s[i] != '\''
      && (s[i] == '&' ==> EntityAt(s, i))
  }

  /** Decoding of the five entities: the inverse the escaper is checked against. */
  function Unescape(s: string): string
    decreases |s|
  {
    if s == [] then []
    else if s[0] != '&' then [s[0]] + Unescape(s[1..])
    else if StartsWith(s, "&amp;") then "&" + Unescape(s[5..])
    else if StartsWith(s, "&lt;") then "<" + Unescape(s[4..])
    else if StartsWith(s, "&gt;") then ">" + Unescape(s[4..])
    else if StartsWith(s, "&quot;") then "\"" + Unescape(s[6..])
    else if StartsWith(s, "&#039;") then "'" + Unescape(s[6..])
    else [s[0]] + Unescape(s[1..])
  }

  lemma SafeConcat(a: string, b: string)
    requires Safe(a) && Safe(b)
    ensures Safe(a + b)
  {
    var s := a + b;
    forall i | 0 <= i < |s| && s[i] == '&'
      ensures EntityAt(s, i)
    {
      if i < |a| {
        assert EntityAt(a, i);
        assert s[i..] == a[i..] + b;
      } else {
        assert s[i] == b[i - |a|];
        assert EntityAt(b, i - |a|);
        assert s[i..] == b[i - |a|..];
      }
    }
  }

  lemma EscapeCharSafe(c: char)
    ensures Safe(EscapeChar(c))
  {
    var e := EscapeChar(c);
    if c == '&' {
      assert e[0..] == "&amp;";
    } else if c == '<' {
      assert e[0..] == "&lt;";
    } else if c == '>' {
      assert e[0..] == "&gt;";
    } else if c == '"' {
      assert e[0..] == "&quot;";
    } else if c == '\'' {
      assert e[0..] == "&#039;";
    }
  }

  /** The escaper's output never carries raw markup, and each `&` in it
      starts an entity. */
  lemma {:induction false} EscapeSafe(s: string)
    ensures Safe(Escape(s))
    decreases |s|
  {
    if s != [] {
      EscapeCharSafe(s[0]);
      EscapeSafe(s[1..]);
      SafeConcat(EscapeChar(s[0]), Escape(s[1..]));
    }
  }

  /** The escaper works character by character. */
  lemma {:induction false} EscapeConcat(a: string, b: string)
    ensures Escape(a + b) == Escape(a) + Escape(b)
    decreases |a|
  {
    if a == [] {
      assert a + b == b;
    } else {
      assert (a + b)[0] == a[0];
      assert (a + b)[1..] == a[1..] + b;
      EscapeConcat(a[1..], b);
    }
  }

  /** Text without any of the five characters passes through unchanged. */
  lemma {:induction false} EscapePlain(s: string)
    requires forall i :: 0 <= i < |s| ==> !IsSpecial(s[i])
    ensures Escape(s) == s
    decreases |s|
  {
    if s != [] {
      EscapePlain(s[1..]);
      assert [s[0]] + s[1..] == s;
    }
  }

  /** Decoding an entity followed by anything. */
  lemma UnescapeEntity(e: string, c: char, rest: string)
    requires (c == '&' && e == "&amp;") || (c == '<' && e == "&lt;") || (c == '>' && e == "&gt;")
          || (c == '"' && e == "&quot;") || (c == '\'' && e == "&#039;")
    ensures Unescape(e + rest) == [c] + Unescape(rest)
  {
    var t := e + rest;
    assert t[..|e|] == e && t[|e|..] == rest;
    assert t[1] == e[1];
  }

  /** Decoding a character that does not start an entity. */
  lemma UnescapePlain(c: char, rest: string)
    requires c != '&'
    ensures Unescape([c] + rest) == [c] + Unescape(rest)
  {
    var t := [c] + rest;
    assert t[0] == c && t[1..] == rest;
  }

  lemma UnescapeStep(c: char, rest: string)
    ensures Unescape(EscapeChar(c) + rest) == [c] + Unescape(rest)
  {
    if IsSpecial(c) {
      UnescapeEntity(EscapeChar(c), c, rest);
    } else {
      UnescapePlain(c, rest);
    }
  }

  /** Escaping loses nothing: decoding the entities gives the input back. */
  lemma {:induction false} UnescapeEscape(s: string)
    ensures Unescape(Escape(s)) == s
    decreases |s|
  {
    if s != [] {
      UnescapeStep(s[0], Escape(s[1..]));
      UnescapeEscape(s[1..]);
      assert [s[0]] + s[1..] == s;
    }
  }

  // ---------------------------------------------------------------------
  // The lead submission
  // ---------------------------------------------------------------------

  /** A string field of the parsed body: absent, `null`, or a string.
      (Numbers and other JSON values in these fields are not modelled.) */
  datatype Text = Absent | Null | Given(s: string)

  /** `result.tips`: anything that is not an array, or an array of items. */
  datatype Tips = NotArray | Items(items: seq<Text>)

  /** The `result` field: absent (the handler then uses `{}`), `null`, or an object. */
  datatype LeadResult =
    | Missing
    | NullResult
    | ResultObject(family: Text, depth: Text, rinse: Text, tips: Tips)

  /** The parsed request body. `dump` is the pretty-printed JSON of
      `{result, answers}` that the serialiser produces for the internal mail. */
  datatype Lead = Lead(
    name: Text, email: Text, phone: Text, marketingConsent: Js.Value,
    result: LeadResult, source: Text, site: Text, dump: string)

  /** The handler's configuration: the three environment variables. */
  datatype Env = Env(sendgridKey: Js.Option<string>, fromEmail: Js.Option<string>,
                     internalEmail: Js.Option<string>)

  /** The field as a string: absent and null are not strings. */
  function AsString(t: Text): Js.Option<string>
  {
    if t.Given? then Js.Some(t.s) else Js.None
  }

  /** A truthy string field: present and not empty. */
  predicate Filled(t: Text)
  {
    Js.Truthy(AsString(t))
  }

  /** `escape(t)`: the parameter default `''` applies to an absent value only;
      `null` is converted to the string "null" first. */
  function EscapeText(t: Text): string
  {
    match t
    case Absent => ""
    case Null => Escape("null")
    case Given(s) => Escape(s)
  }

  function ConsentText(v: Js.Value): string
  {
    if Js.IsTruthy(v) then "Yes" else "No"
  }

  function EscapeAll(ts: seq<Text>): (r: seq<string>)
    ensures |r| == |ts|
    ensures forall k :: 0 <= k < |ts| ==> r[k] == EscapeText(ts[k])
    decreases |ts|
  {
    if ts == [] then [] else [EscapeText(ts[0])] + EscapeAll(ts[1..])
  }

  // ---------------------------------------------------------------------
  // The two mails, by the values they interpolate into their templates
  // ---------------------------------------------------------------------

  /** The slots of the customer mail's template. `tips` is `None` when the
      care-tips paragraph is left out. */
  datatype CustomerBody = CustomerBody(
    name: string, family: string, depth: string, rinse: string,
    tips: Js.Option<string>, site: string, phone: string, consent: string)

  /** The slots of the internal notification's template. */
  datatype InternalBody = InternalBody(
    name: string, email: string, phone: string, consent: string, source: string, dump: string)

  datatype Content = Customer(customer: CustomerBody) | Internal(internal: InternalBody)

  /** One call to the mail-sending API. */
  datatype Message = Message(to: string, from: string, subject: string, content: Content)

  const CustomerSubject := "Your Tan Lounge shade match"
  const InternalSubject := "New Tan Lounge Quiz Lead"
  /** The engine's message for reading `family` of a null `result`. */
  const NullResultError := "Cannot read properties of null (reading 'family')"

  function TipsSlot(tips: Tips): Js.Option<string>
  {
    if tips.Items? && |tips.items| > 0 then Js.Some(Js.Join(EscapeAll(tips.items), " ")) else Js.None
  }

  /** Evaluating the customer template: it throws when `result` is null. */
  function RenderCustomer(lead: Lead): Js.Call<CustomerBody>
  {
    match lead.result
    case NullResult => Js.Threw(NullResultError)
    case Missing =>
      Js.Returned(CustomerBody(EscapeText(lead.name), "", "", "", Js.None,
        Escape(Js.OrElse(AsString(lead.site), "website")), Escape(Js.OrElse(AsString(lead.phone), "")),
        ConsentText(lead.marketingConsent)))
    case ResultObject(family, depth, rinse, tips) =>
      Js.Returned(CustomerBody(EscapeText(lead.name),
        Escape(Js.OrElse(AsString(family), "")), Escape(Js.OrElse(AsString(depth), "")),
        Escape(Js.OrElse(AsString(rinse), "")),
        TipsSlot(tips),
        Escape(Js.OrElse(AsString(lead.site), "website")), Escape(Js.OrElse(AsString(lead.phone), "")),
        ConsentText(lead.marketingConsent)))
  }

  function RenderInternal(lead: Lead): InternalBody
  {
    InternalBody(EscapeText(lead.name), EscapeText(lead.email), EscapeText(lead.phone),
      ConsentText(lead.marketingConsent), Escape(Js.OrElse(AsString(lead.source), "")), Escape(lead.dump))
  }

  /** Every user-supplied value in a mail went through the escaper. */
  predicate SlotsSafe(c: Content)
  {
    match c
    case Customer(b) =>
      Safe(b.name) && Safe(b.family) && Safe(b.depth) && Safe(b.rinse)
      && (b.tips.Some? ==> Safe(b.tips.value))
      && Safe(b.site) && Safe(b.phone) && Safe(b.consent)
    case Internal(b) =>
      Safe(b.name) && Safe(b.email) && Safe(b.phone) && Safe(b.consent)
      && Safe(b.source) && Safe(b.dump)
  }

  lemma EscapeTextSafe(t: Text)
    ensures Safe(EscapeText(t))
  {
    match t
    case Absent =>
    case Null => EscapeSafe("null");
    case Given(s) => EscapeSafe(s);
  }

  lemma {:induction false} JoinSafe(xs: seq<string>, sep: string)
    requires Safe(sep)
    requires forall k :: 0 <= k < |xs| ==> Safe(xs[k])
    ensures Safe(Js.Join(xs, sep))
    decreases |xs|
  {
    if |xs| > 1 {
      JoinSafe(xs[1..], sep);
      SafeConcat(xs[0], sep);
      SafeConcat(xs[0] + sep, Js.Join(xs[1..], sep));
    }
  }

  lemma ConsentSafe(v: Js.Value)
    ensures Safe(ConsentText(v))
  {
    if Js.IsTruthy(v) {
      EscapePlain("Yes");
      EscapeSafe("Yes");
    } else {
      EscapePlain("No");
      EscapeSafe("No");
    }
  }

  /** Every slot of the rendered customer mail is safe HTML text. */
  lemma CustomerSafe(lead: Lead)
    requires RenderCustomer(lead).Returned?
    ensures SlotsSafe(Customer(RenderCustomer(lead).value))
  {
    EscapeTextSafe(lead.name);
    EscapeSafe(Js.OrElse(AsString(lead.site), "website"));
    EscapeSafe(Js.OrElse(AsString(lead.phone), ""));
    EscapeSafe("");
    ConsentSafe(lead.marketingConsent);
    if lead.result.ResultObject? {
      var r := lead.result;
      EscapeSafe(Js.OrElse(AsString(r.family), ""));
      EscapeSafe(Js.OrElse(AsString(r.depth), ""));
      EscapeSafe(Js.OrElse(AsString(r.rinse), ""));
      if r.tips.Items? && |r.tips.items| > 0 {
        var xs := EscapeAll(r.tips.items);
        forall k | 0 <= k < |xs| ensures Safe(xs[k]) {
          EscapeTextSafe(r.tips.items[k]);
        }
        EscapePlain(" ");
        EscapeSafe(" ");
        JoinSafe(xs, " ");
      }
    }
  }

  /** Every slot of the internal notification is safe HTML text. */
  lemma InternalSafe(lead: Lead)
    ensures SlotsSafe(Internal(RenderInternal(lead)))
  {
    EscapeTextSafe(lead.name);
    EscapeTextSafe(lead.email);
    EscapeTextSafe(lead.phone);
    ConsentSafe(lead.marketingConsent);
    EscapeSafe(Js.OrElse(AsString(lead.source), ""));
    EscapeSafe(lead.dump);
  }

  /** Both mails show "Yes" for the consent exactly when `marketingConsent`
      is truthy, and "No" otherwise. */
  lemma ConsentShown(lead: Lead)
    ensures RenderCustomer(lead).Returned? ==>
      (RenderCustomer(lead).value.consent == "Yes" <==> Js.IsTruthy(lead.marketingConsent))
    ensures RenderCustomer(lead).Returned? ==>
      (RenderCustomer(lead).value.consent == "No" <==> !Js.IsTruthy(lead.marketingConsent))
    ensures RenderInternal(lead).consent == "Yes" <==> Js.IsTruthy(lead.marketingConsent)
    ensures RenderInternal(lead).consent == "No" <==> !Js.IsTruthy(lead.marketingConsent)
  {
  }

  // ---------------------------------------------------------------------
  // The handler
  // ---------------------------------------------------------------------

  /** The response body: empty (preflight), an error message, or `{ok:true}`. */
  datatype Reply = Empty | Error(message: string) | OkTrue

  /** `e.message || 'Send failed'`. */
  function ErrorText(message: string): string
  {
    if message != "" then message else "Send failed"
  }

  predicate Configured(env: Env)
  {
    Js.Truthy(env.sendgridKey) && Js.Truthy(env.fromEmail)
  }

  /** The request gets as far as the sends: a POST, configured, a body that
      parses, a non-empty name and email, and a template that renders. */
  predicate Accepted(httpMethod: string, env: Env, parsed: Js.Call<Lead>)
  {
    httpMethod == "POST" && Configured(env) && parsed.Returned?
    && Filled(parsed.value.name) && Filled(parsed.value.email)
    && !parsed.value.result.NullResult?
  }

  /** The handler. `parsed` is what `JSON.parse(event.body || '{}')` gave;
      `customerSend` and `internalSend` are what the two awaited calls to the
      mail API do (the HTTP status they resolve with is not inspected).
      `sends` lists the calls made to the mail API, in order. */
  method HandleQuizEmail(httpMethod: string, env: Env, parsed: Js.Call<Lead>,
                         customerSend: Js.Call<int>, internalSend: Js.Call<int>)
    returns (resp: Js.Response<Reply>, sends: seq<Message>)
    ensures httpMethod == "OPTIONS" ==> resp == Js.Response(200, Empty) && sends == []
    ensures httpMethod != "OPTIONS" && httpMethod != "POST" ==>
      resp == Js.Response(405, Error("Method not allowed")) && sends == []
    ensures httpMethod == "POST" && !Configured(env) ==>
      resp == Js.Response(500, Error("Email not configured")) && sends == []
    ensures httpMethod == "POST" && Configured(env) && parsed.Threw? ==>
      resp == Js.Response(500, Error(ErrorText(parsed.message))) && sends == []
    ensures httpMethod == "POST" && Configured(env) && parsed.Returned?
            && (!Filled(parsed.value.name) || !Filled(parsed.value.email)) ==>
      resp == Js.Response(400, Error("Missing name or email")) && sends == []
    // a null `result` throws while the customer mail is rendered, before any send
    ensures httpMethod == "POST" && Configured(env) && parsed.Returned?
            && Filled(parsed.value.name) && Filled(parsed.value.email) && parsed.value.result.NullResult? ==>
      resp == Js.Response(500, Error(NullResultError)) && sends == []
    ensures !Accepted(httpMethod, env, parsed) ==> sends == [] && resp.body != OkTrue
    // the sends: one to the submitter, then one to the internal address iff it is set
    ensures Accepted(httpMethod, env, parsed) ==>
      1 <= |sends| <= 2
      && sends[0] == Message(parsed.value.email.s, env.fromEmail.value, CustomerSubject,
                             Customer(RenderCustomer(parsed.value).value))
      && (|sends| == 2 <==> customerSend.Returned? && Js.Truthy(env.internalEmail))
    ensures |sends| == 2 ==>
      sends[1] == Message(env.internalEmail.value, env.fromEmail.value, InternalSubject,
                          Internal(RenderInternal(parsed.value)))
    ensures forall k :: 0 <= k < |sends| ==> SlotsSafe(sends[k].content)
    // the outcome
    ensures resp == Js.Response(200, OkTrue) <==>
      Accepted(httpMethod, env, parsed) && customerSend.Returned?
      && (Js.Truthy(env.internalEmail) ==> internalSend.Returned?)
    ensures Accepted(httpMethod, env, parsed) && customerSend.Threw? ==>
      resp == Js.Response(500, Error(ErrorText(customerSend.message)))
    ensures |sends| == 2 && internalSend.Threw? ==>
      resp == Js.Response(500, Error(ErrorText(internalSend.message)))
    ensures resp.status in {200, 400, 405, 500}
  {
    sends := [];
    if httpMethod == "OPTIONS" {
      return Js.Response(200, Empty), sends;
    }
    if httpMethod != "POST" {
      return Js.Response(405, Error("Method not allowed")), sends;
    }
    if !Js.Truthy(env.sendgridKey) || !Js.Truthy(env.fromEmail) {
      return Js.Response(500, Error("Email not configured")), sends;
    }
    if parsed.Threw? {
      return Js.Response(500, Error(ErrorText(parsed.message))), sends;
    }
    var lead := parsed.value;
    if !Filled(lead.name) || !Filled(lead.email) {
      return Js.Response(400, Error("Missing name or email")), sends;
    }
    var body := RenderCustomer(lead);
    if body.Threw? {
      return Js.Response(500, Error(ErrorText(body.message))), sends;
    }
    CustomerSafe(lead);
    sends := sends + [Message(lead.email.s, env.fromEmail.value, CustomerSubject, Customer(body.value))];
    if customerSend.Threw? {
      return Js.Response(500, Error(ErrorText(customerSend.message))), sends;
    }
    if Js.Truthy(env.internalEmail) {
      InternalSafe(lead);
      sends := sends + [Message(env.internalEmail.value, env.fromEmail.value, InternalSubject,
                                Internal(RenderInternal(lead)))];
      if internalSend.Threw? {
        return Js.Response(500, Error(ErrorText(internalSend.message))), sends;
      }
    }
    resp := Js.Response(200, OkTrue);
  }
}
