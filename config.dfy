/** app/config/email_config.py: the mail-relay settings and the template
    renderer. */
module Config {
  import opened Wrappers
  import opened PyStr

  /** A JSON scalar as it arrives in a request body. */
  datatype Value = Text(text: string) | Number(number: int)

  /** The four mail-relay settings; `from_dict` copies them without
      checking their types. */
  datatype EmailConfig = EmailConfig(smtpServer: Value, smtpPort: Value, emailAddress: Value, emailPassword: Value)

  type ConfigDict = map<string, Value>

  /** The keys `from_dict` reads, in the order Python evaluates them. */
  const ConfigKeys: seq<string> := ["smtpServer", "smtpPort", "emailAddress", "emailPassword"]

  /** `str(KeyError(k))`. */
  function KeyErrorText(key: string): string {
    "'" + key + "'"
  }

  /** `EmailConfig.from_dict`: the first absent key raises KeyError. */
  function FromDict(d: ConfigDict): (r: Result<EmailConfig, string>)
    ensures r.Ok? <==> forall k | k in ConfigKeys :: k in d
    ensures r.Ok? ==> r.value.smtpServer == d["smtpServer"] && r.value.smtpPort == d["smtpPort"]
                      && r.value.emailAddress == d["emailAddress"] && r.value.emailPassword == d["emailPassword"]
    ensures r.Err? ==> exists i | 0 <= i < |ConfigKeys| ::
                         ConfigKeys[i] !in d && r.error == KeyErrorText(ConfigKeys[i])
                         && forall j | 0 <= j < i :: ConfigKeys[j] in d
  {
    assert ConfigKeys[0] == "smtpServer" && ConfigKeys[1] == "smtpPort";
    assert ConfigKeys[2] == "emailAddress" && ConfigKeys[3] == "emailPassword";
    if "smtpServer" !in d then Err(KeyErrorText("smtpServer"))
    else if "smtpPort" !in d then Err(KeyErrorText("smtpPort"))
    else if "emailAddress" !in d then Err(KeyErrorText("emailAddress"))
    else if "emailPassword" !in d then Err(KeyErrorText("emailPassword"))
    else Ok(EmailConfig(d["smtpServer"], d["smtpPort"], d["emailAddress"], d["emailPassword"]))
  }

  /** The dictionary app/main.py builds from the validated request before
      handing it to the dispatcher. */
  function ToDict(c: EmailConfig): ConfigDict {
    map["smtpServer" := c.smtpServer, "smtpPort" := c.smtpPort,
        "emailAddress" := c.emailAddress, "emailPassword" := c.emailPassword]
  }

  /** The dictionary main.py builds always reads back as the same settings,
      so `from_dict` never raises on that path. */
  lemma FromDictToDict(c: EmailConfig)
    ensures FromDict(ToDict(c)) == Ok(c)
  {
    assert forall k | k in ConfigKeys :: k in ToDict(c);
  }

  /** A template as the request carries it: keys "subject" and "content". */
  type Template = map<string, string>

  /** `template.get(key, '')`. */
  function Field(t: Template, key: string): string {
    if key in t then t[key] else ""
  }

  const Placeholder: string := "{name}"

  /** The tracking pixel is currently the empty string. */
  const TrackingPixel: string := ""

  /** Python truthiness of the optional campaign id. */
  predicate Truthy(campaignId: Option<string>) {
    campaignId.Some? && campaignId.value != ""
  }

  /** `EmailTemplate.get_custom_template`: every "{name}" in subject and
      content becomes the business name; a truthy campaign id appends a
      blank line and the tracking pixel to the body. */
  function GetCustomTemplate(businessName: string, t: Template, campaignId: Option<string>): (r: (string, string))
    ensures r.0 == Join(Split(Field(t, "subject"), Placeholder), businessName)
    ensures r.1 == Join(Split(Field(t, "content"), Placeholder), businessName)
                   + (if Truthy(campaignId) then "\n\n" else "")
  {
    var subject := Replace(Field(t, "subject"), Placeholder, businessName);
    var body := Replace(Field(t, "content"), Placeholder, businessName);
    ReplaceIsSplitJoin(Field(t, "subject"), Placeholder, businessName);
    ReplaceIsSplitJoin(Field(t, "content"), Placeholder, businessName);
    (subject, if Truthy(campaignId) then body + "\n\n" + TrackingPixel else body)
  }

  /** A subject and content without "{name}" come back unchanged (apart
      from the tracking suffix on the body). */
  lemma TemplateWithoutPlaceholder(businessName: string, t: Template, campaignId: Option<string>)
    requires !Occurs(Field(t, "subject"), Placeholder) && !Occurs(Field(t, "content"), Placeholder)
    ensures GetCustomTemplate(businessName, t, campaignId).0 == Field(t, "subject")
    ensures GetCustomTemplate(businessName, t, campaignId).1
            == Field(t, "content") + (if Truthy(campaignId) then "\n\n" else "")
  {
    ReplaceWithoutOccurrence(Field(t, "subject"), Placeholder, businessName);
    ReplaceWithoutOccurrence(Field(t, "content"), Placeholder, businessName);
  }

  /** The example rendering: a template whose subject is "Hi {name}" and
      whose content is "Dear {name}", for Acme, without a campaign id. */
  lemma RenderAcme(t: Template)
    requires Field(t, "subject") == "Hi " + Placeholder && Field(t, "content") == "Dear " + Placeholder
    ensures GetCustomTemplate("Acme", t, None) == ("Hi Acme", "Dear Acme")
  {
    ReplacePlaceholderAtEnd("Hi ", "Acme");
    ReplacePlaceholderAtEnd("Dear ", "Acme");
    assert !Truthy(None);
    var r := GetCustomTemplate("Acme", t, None);
    assert r.0 == Replace(Field(t, "subject"), Placeholder, "Acme");
    assert r.0 == "Hi Acme";
    assert r.1 == "Dear Acme";
  }

  /** A text ending in one placeholder, with no brace before it. */
  lemma {:induction false} ReplacePlaceholderAtEnd(prefix: string, name: string)
    requires '{' !in prefix
    ensures Replace(prefix + Placeholder, Placeholder, name) == prefix + name
    decreases |prefix|
  {
    if |prefix| == 0 {
      assert Placeholder[|Placeholder|..] == [];
    } else {
      var s := prefix + Placeholder;
      assert s[0] == prefix[0];
      assert !(Placeholder <= s);
      assert s[1..] == prefix[1..] + Placeholder;
      ReplacePlaceholderAtEnd(prefix[1..], name);
    }
  }

  /** A name that itself contains "{name}" is inserted verbatim: the
      substitution is not applied again to its own output. */
  lemma NameIsNotReexpanded(name: string)
    ensures GetCustomTemplate(name, map["subject" := Placeholder], None).0 == name
  {
    var t := map["subject" := Placeholder];
    assert Split(Placeholder, Placeholder) == ["", ""] by {
      assert Placeholder[|Placeholder|..] == [];
    }
  }
}
