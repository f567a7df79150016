/** The shared data shapes of the dashboard: languages, channels, generated
    video packages, log entries, chat messages and trend-search results. */
module Types {

  datatype Option<+T> = None | Some(value: T)

  datatype Result<+T, +E> = Ok(value: T) | Err(error: E)

  /** The two interface languages. */
  datatype Language = En | ZhTW

  /** The tag the interface uses for a language. */
  function LanguageTag(l: Language): string
  {
    match l
    case En => "en"
    case ZhTW => "zh-TW"
  }

  /** A channel is either running or paused. */
  datatype ChannelStatus = Active | Paused

  /** The word the interface uses for a status. */
  function StatusTag(s: ChannelStatus): string
  {
    match s
    case Active => "active"
    case Paused => "paused"
  }

  datatype Channel = Channel(
    id: string,
    name: string,
    subscribers: string,
    niche: string,
    avatar: string,
    status: ChannelStatus)

  /** A generated video package; every field is required and the hashtags keep their order. */
  datatype VideoScript = VideoScript(
    title: string,
    description: string,
    script: string,
    hashtags: seq<string>,
    thumbnailPrompt: string,
    bgMusicType: string)

  datatype LogLevel = Info | Warning | Error | Success

  function LevelTag(l: LogLevel): string
  {
    match l
    case Info => "info"
    case Warning => "warning"
    case Error => "error"
    case Success => "success"
  }

  /** A log entry; `id` and `timestamp` are display strings, `channelId` is optional. */
  datatype LogEntry = LogEntry(
    id: string,
    timestamp: string,
    level: LogLevel,
    message: string,
    channelId: Option<string>)

  datatype ChatRole = User | Model

  /** A chat message; `timestamp` is a number of milliseconds. */
  datatype ChatMessage = ChatMessage(
    id: string,
    role: ChatRole,
    content: string,
    timestamp: int)

  /** One grounding citation of a trend search: exactly a title and a uri. */
  datatype Source = Source(title: string, uri: string)

  datatype SearchResult = SearchResult(text: string, sources: seq<Source>)

  /** Distinct languages, statuses and levels are shown with distinct tags. */
  lemma TagsAreDistinct(a: Language, b: Language, s: ChannelStatus, t: ChannelStatus, l: LogLevel, m: LogLevel)
    ensures LanguageTag(a) == LanguageTag(b) ==> a == b
    ensures StatusTag(s) == StatusTag(t) ==> s == t
    ensures LevelTag(l) == LevelTag(m) ==> l == m
  {
  }
}
