/** The records and page state of DuoChat, with the defaults of their
    fields: `Role`, `ChatMessage`, `Models`, `Conversation`, `State` and
    `ModelDialogState`. */
module DataModel {
  import opened Wrappers
  import opened Text

  /** `Role = Literal["user", "model"]`. */
  datatype Role = User | Model {
    function Value(): string
    {
      match this
      case User => "user"
      case Model => "model"
    }
  }

  /** The role a literal string denotes, if it is one of the two allowed. */
  function RoleOf(s: string): (r: Option<Role>)
    ensures r.Some? <==> s == "user" || s == "model"
    ensures r.Some? ==> r.value.Value() == s
  {
    if s == "user" then Some(User) else if s == "model" then Some(Model) else None
  }

  /** A chat message; a keyword-only dataclass whose fields all default. */
  datatype ChatMessage = ChatMessage(role: Role := User, content: string := "", inProgress: bool := false)

  /** The model enumeration, in declaration order. */
  datatype Models = Gemini20Flash | Gemini15Flash | Gemini15Pro {
    /** The member's name, as `model.name` gives it. */
    function Name(): string
    {
      match this
      case Gemini20Flash => "GEMINI_2_0_FLASH"
      case Gemini15Flash => "GEMINI_1_5_FLASH"
      case Gemini15Pro => "GEMINI_1_5_PRO"
    }

    /** The member's value, the model identifier. */
    function Value(): (v: string)
      ensures StartsWith(v, "gemini")
    {
      match this
      case Gemini20Flash => "gemini-2.0-flash"
      case Gemini15Flash => "gemini-1.5-flash"
      case Gemini15Pro => "gemini-1.5-pro"
    }
  }

  /** Iterating over `Models` visits the members in declaration order. */
  const AllModels: seq<Models> := [Gemini20Flash, Gemini15Flash, Gemini15Pro]

  /** `Models(s)`: the member whose value is `s`, if any. */
  function ModelsOf(s: string): (r: Option<Models>)
    ensures r.Some? ==> r.value.Value() == s
    ensures r.None? ==> forall m: Models :: m.Value() != s
  {
    if s == "gemini-2.0-flash" then Some(Gemini20Flash)
    else if s == "gemini-1.5-flash" then Some(Gemini15Flash)
    else if s == "gemini-1.5-pro" then Some(Gemini15Pro)
    else None
  }

  /** The enumeration lists every member once, and distinct members have
      distinct values, so a value names exactly one member. */
  lemma ModelsValuesDistinct(m: Models, n: Models)
    ensures m in AllModels && |AllModels| == 3
    ensures m.Value() == n.Value() ==> m == n
    ensures ModelsOf(m.Value()) == Some(m)
  {
  }

  /** A conversation with one model; `messages` defaults to a fresh empty list. */
  datatype Conversation = Conversation(model: string := "", messages: seq<ChatMessage> := [])

  /** The DuoChat page state. */
  class State {
    var isModelPickerDialogOpen: bool
    var input: string
    var conversations: seq<Conversation>
    var models: seq<string>
    var geminiApiKey: string
    var claudeApiKey: string

    constructor ()
      ensures !isModelPickerDialogOpen && input == "" && conversations == [] && models == []
      ensures geminiApiKey == "" && claudeApiKey == ""
    {
      isModelPickerDialogOpen := false;
      input := "";
      conversations := [];
      models := [];
      geminiApiKey := "";
      claudeApiKey := "";
    }
  }

  /** The staging list edited while the model picker dialog is open. */
  class ModelDialogState {
    var selectedModels: seq<string>

    constructor ()
      ensures selectedModels == []
    {
      selectedModels := [];
    }
  }

  /** The defaults of the two dataclasses. */
  lemma Defaults()
    ensures ChatMessage() == ChatMessage(User, "", false)
    ensures ChatMessage().role.Value() == "user"
    ensures Conversation() == Conversation("", [])
  {
  }
}
