/** The records and enumerations of MailHub (src-tauri/src/types.rs), with the
    lowercase names serde gives the enumerations on the wire. */
module Types {
  import opened Wrappers

  type U16 = x: int | 0 <= x < 0x1_0000
  type U64 = x: int | 0 <= x < 0x1_0000_0000_0000_0000

  datatype Protocol = Imap | Pop3 | OAuth2
  datatype Provider = Gmail | Outlook | Other

  datatype AccountConfig = AccountConfig(
    host: Option<string>,
    port: Option<U16>,
    username: Option<string>,
    password: Option<string>,
    oauthToken: Option<string>,
    refreshToken: Option<string>)

  datatype EmailAccount = EmailAccount(
    id: string,
    name: string,
    email: string,
    displayName: Option<string>,
    tags: Option<seq<string>>,
    protocol: Protocol,
    provider: Option<Provider>,
    config: AccountConfig)

  datatype EmailAddress = EmailAddress(name: Option<string>, address: string)

  datatype Attachment = Attachment(
    id: string,
    filename: string,
    mimeType: string,
    size: U64,
    content: Option<string>)

  datatype Category = Marketing | Important | Verification | Normal

  datatype AIClassification = AIClassification(
    category: Category,
    verificationCode: Option<string>,
    verificationLink: Option<string>,
    shouldNotify: bool)

  datatype Email = Email(
    id: string,
    accountId: string,
    subject: string,
    from: EmailAddress,
    to: seq<EmailAddress>,
    cc: Option<seq<EmailAddress>>,
    bcc: Option<seq<EmailAddress>>,
    date: string,
    body: string,
    htmlBody: Option<string>,
    attachments: Option<seq<Attachment>>,
    isRead: bool,
    isStarred: bool,
    labels: Option<seq<string>>,
    aiClassification: Option<AIClassification>)

  datatype AIProvider = OpenAI | Anthropic | Gemini

  datatype AIConfig = AIConfig(
    enabled: bool,
    provider: AIProvider,
    apiKey: string,
    apiEndpoint: Option<string>,
    model: Option<string>,
    autoDelete: bool)

  datatype Theme = Light | Dark | System

  datatype AppSettings = AppSettings(notifications: bool, aiConfig: Option<AIConfig>, theme: Theme)

  /** True when the settings carry a classifier configuration that is switched on. */
  predicate ClassificationOn(settings: AppSettings)
  {
    settings.aiConfig.Some? && settings.aiConfig.value.enabled
  }

  // ---------------------------------------------------------------------------
  // Wire names: `#[serde(rename_all = "lowercase")]`

  function CategoryName(c: Category): string
  {
    match c
    case Marketing => "marketing"
    case Important => "important"
    case Verification => "verification"
    case Normal => "normal"
  }

  /** Decoding a category name: exactly the four lowercase names are accepted. */
  function ParseCategory(s: string): (r: Option<Category>)
    ensures forall c :: r == Some(c) <==> s == CategoryName(c)
  {
    if s == "marketing" then Some(Marketing)
    else if s == "important" then Some(Important)
    else if s == "verification" then Some(Verification)
    else if s == "normal" then Some(Normal)
    else None
  }

  function AIProviderName(p: AIProvider): string
  {
    match p
    case OpenAI => "openai"
    case Anthropic => "anthropic"
    case Gemini => "gemini"
  }

  function ParseAIProvider(s: string): (r: Option<AIProvider>)
    ensures forall p :: r == Some(p) <==> s == AIProviderName(p)
  {
    if s == "openai" then Some(OpenAI)
    else if s == "anthropic" then Some(Anthropic)
    else if s == "gemini" then Some(Gemini)
    else None
  }

  function ProtocolName(p: Protocol): string
  {
    match p
    case Imap => "imap"
    case Pop3 => "pop3"
    case OAuth2 => "oauth2"
  }

  function ParseProtocol(s: string): (r: Option<Protocol>)
    ensures forall p :: r == Some(p) <==> s == ProtocolName(p)
  {
    if s == "imap" then Some(Imap)
    else if s == "pop3" then Some(Pop3)
    else if s == "oauth2" then Some(OAuth2)
    else None
  }

  function ProviderName(p: Provider): string
  {
    match p
    case Gmail => "gmail"
    case Outlook => "outlook"
    case Other => "other"
  }

  function ParseProvider(s: string): (r: Option<Provider>)
    ensures forall p :: r == Some(p) <==> s == ProviderName(p)
  {
    if s == "gmail" then Some(Gmail)
    else if s == "outlook" then Some(Outlook)
    else if s == "other" then Some(Other)
    else None
  }

  function ThemeName(t: Theme): string
  {
    match t
    case Light => "light"
    case Dark => "dark"
    case System => "system"
  }

  function ParseTheme(s: string): (r: Option<Theme>)
    ensures forall t :: r == Some(t) <==> s == ThemeName(t)
  {
    if s == "light" then Some(Light)
    else if s == "dark" then Some(Dark)
    else if s == "system" then Some(System)
    else None
  }

  /** Every enumeration's name map is injective, so decoding an encoded
      variant gives the variant back. */
  lemma WireNamesRoundTrip()
    ensures forall c :: ParseCategory(CategoryName(c)) == Some(c)
    ensures forall p :: ParseAIProvider(AIProviderName(p)) == Some(p)
    ensures forall p :: ParseProtocol(ProtocolName(p)) == Some(p)
    ensures forall p :: ParseProvider(ProviderName(p)) == Some(p)
    ensures forall t :: ParseTheme(ThemeName(t)) == Some(t)
    ensures forall c, d :: CategoryName(c) == CategoryName(d) ==> c == d
  {
  }
}
