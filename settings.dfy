/** The process-wide configuration of the chat service, the choice of
    backend it implies, and the fixed texts built from it (app.py:23-48,
    app.py:79, app.py:86-90). */
module Settings {
  import opened Wrappers
  import opened PyText

  /** The values app.py reads from the environment once, at start-up
      (app.py:23-30), plus whether the `openai` package could be imported
      (app.py:13-16). Nothing changes them afterwards. */
  datatype Config = Config(
    assistantName: string,
    companyName: string,
    supportEmail: string,
    supportPhone: string,
    openaiModel: string,
    ollamaModel: string,
    ollamaUrl: string,
    openaiApiKey: Option<string>,
    openaiLibrary: bool)

  /** The two backends a reply can come from. */
  datatype Backend = HostedApi | LocalServer

  /** Python truthiness of an optional string: present and not empty. */
  predicate Truthy(v: Option<string>) {
    v.Some? && v.value != ""
  }

  /** The hosted client exists exactly when the `openai` package imported and
      an API key is set to a non-empty string (app.py:32); `generate_reply`
      takes the hosted path exactly when that client exists (app.py:71). */
  function SelectBackend(c: Config): (b: Backend)
    ensures b == HostedApi <==> c.openaiLibrary && c.openaiApiKey.Some? && c.openaiApiKey.value != ""
  {
    if c.openaiLibrary && Truthy(c.openaiApiKey) then HostedApi else LocalServer
  }

  /** The reply used whenever a backend answers with nothing but whitespace (app.py:79, app.py:84). */
  const ClarifyingQuestion: string := "Could you share more details?"

  lemma ClarifyingQuestionIsStripped()
    ensures ClarifyingQuestion != [] && IsStripped(ClarifyingQuestion)
  {
  }

  /** The text of the system instruction around the e-mail address and the
      phone number it embeds (app.py:43-47), split where the source splits it. */
  const PromptBeforeEmail: string :=
    "You are a helpful customer service chatbot. "
      + "Resolve common issues, ask clarifying questions, and collect key details. "
      + "If the user needs human help, respond with an escalation plan, including "
  const PromptBetween: string := " and "
  const PromptAfterPhone: string :=
    ". Keep replies concise and friendly. "
      + "Format responses with short paragraphs and bullet lists when helpful."

  /** The system instruction starts with a letter and ends with a full stop. */
  lemma PromptEnds()
    ensures PromptBeforeEmail != [] && !IsSpace(PromptBeforeEmail[0])
    ensures PromptAfterPhone != [] && !IsSpace(PromptAfterPhone[|PromptAfterPhone| - 1])
  {
    var first := "You are a helpful customer service chatbot. ";
    assert first[0] == 'Y';
    assert PromptBeforeEmail[0] == first[0];
  }

  /** A text spliced together from five pieces contains its second and its
      fourth piece, and is stripped when its outer pieces start and end
      with a character that is not whitespace. */
  lemma SpliceFive(a: string, t: string, m: string, u: string, z: string)
    requires a != [] && !IsSpace(a[0]) && z != [] && !IsSpace(z[|z| - 1])
    ensures var r := a + t + m + u + z; Contains(r, t) && Contains(r, u) && r != [] && IsStripped(r)
  {
    var r := a + t + m + u + z;
    ContainsMiddle(a, t, m + u + z);
    assert a + t + (m + u + z) == r;
    ContainsMiddle(a + t + m, u, z);
    assert r[0] == a[0] && r[|r| - 1] == z[|z| - 1];
  }

  /** The system instruction sent first in every request (app.py:41-48). It
      names the escalation e-mail address and phone number literally. */
  function SystemPrompt(c: Config): (r: string)
    ensures Contains(r, c.supportEmail) && Contains(r, c.supportPhone)
    ensures r != [] && IsStripped(r)
  {
    PromptEnds();
    SpliceFive(PromptBeforeEmail, c.supportEmail, PromptBetween, c.supportPhone, PromptAfterPhone);
    PromptBeforeEmail + c.supportEmail + PromptBetween + c.supportPhone + PromptAfterPhone
  }

  /** The text of the apology around the e-mail address it embeds
      (app.py:87-89). */
  const ApologyBeforeEmail: string :=
    "Thanks for reaching out. " + "I can help with account access, billing, and "
      + "product questions. If you need a human, I can escalate to "
  const ApologyAfterEmail: string := ". What can I help with today?"

  /** The apology starts with a letter and ends with a question mark. */
  lemma ApologyEnds()
    ensures ApologyBeforeEmail != [] && ApologyBeforeEmail[0] == 'T'
    ensures ApologyAfterEmail != [] && !IsSpace(ApologyAfterEmail[|ApologyAfterEmail| - 1])
  {
    var first := "Thanks for reaching out. ";
    assert first[0] == 'T';
    assert ApologyBeforeEmail[0] == first[0];
  }

  /** A text spliced together from three pieces contains its middle piece,
      and is stripped when its outer pieces start and end with a character
      that is not whitespace. */
  lemma SpliceThree(a: string, t: string, z: string)
    requires a != [] && !IsSpace(a[0]) && z != [] && !IsSpace(z[|z| - 1])
    ensures var r := a + t + z; Contains(r, t) && r != [] && IsStripped(r) && r[0] == a[0]
  {
    var r := a + t + z;
    ContainsMiddle(a, t, z);
    assert r[0] == a[0] && r[|r| - 1] == z[|z| - 1];
  }

  /** The apology returned when the local model server cannot be reached
      (app.py:85-90). It names the escalation e-mail address and differs from
      the clarifying question. */
  function CannedApology(c: Config): (r: string)
    ensures Contains(r, c.supportEmail)
    ensures r != [] && IsStripped(r) && r != ClarifyingQuestion
  {
    ApologyEnds();
    SpliceThree(ApologyBeforeEmail, c.supportEmail, ApologyAfterEmail);
    assert ClarifyingQuestion[0] == 'C';
    ApologyBeforeEmail + c.supportEmail + ApologyAfterEmail
  }
}
