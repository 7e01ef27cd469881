/** The catalogue of MCP tools and the provider method each one runs. */
module Tools {
  import opened Prelude
  import opened Policies

  datatype ToolName =
    | ListAccountsTool
    | SearchTool | GetThreadTool | GetMessageTool | ListFoldersTool | ListLabelsTool | ListDraftsTool
    | MarkReadTool | StarTool | LabelTool | MoveToTool | ArchiveTool
    | TrashTool | UntrashTool
    | CreateDraftTool | UpdateDraftTool
    | SendMessageTool | SendDraftTool

  datatype ProviderMethod =
    | Search | GetThread | GetMessage | ListFolders | ListLabels | ListDrafts
    | MarkRead | Star | Label | MoveTo | Archive
    | TrashMessages | UntrashMessages
    | CreateDraft | UpdateDraft
    | SendMessage | SendDraft

  /** The arguments of a call as the dispatcher sees them: the account id if one parses,
      whether they decode as the arguments of a compose or of an update, and the raw value. */
  datatype Args = Args(account: Option<AccountId>, composeOk: bool, updateOk: bool, raw: nat)

  /** The category column of the tool table. */
  function ToolCategory(tool: ToolName): Category {
    match tool
    case ListAccountsTool | SearchTool | GetThreadTool | GetMessageTool
       | ListFoldersTool | ListLabelsTool | ListDraftsTool => Read
    case MarkReadTool | StarTool | LabelTool | MoveToTool | ArchiveTool => Modify
    case TrashTool | UntrashTool => Trash
    case CreateDraftTool | UpdateDraftTool => Draft
    case SendMessageTool | SendDraftTool => Send
  }

  /** What a provider method does to the mailbox, whichever tool asked for it. */
  function EffectOn(m: ProviderMethod): Category {
    match m
    case Search | GetThread | GetMessage | ListFolders | ListLabels | ListDrafts => Read
    case MarkRead | Star | Label | MoveTo | Archive => Modify
    case TrashMessages | UntrashMessages => Trash
    case CreateDraft | UpdateDraft => Draft
    case SendMessage | SendDraft => Send
  }

  /** The tool that asks for a provider method. */
  function ToolOf(m: ProviderMethod): ToolName {
    match m
    case Search => SearchTool
    case GetThread => GetThreadTool
    case GetMessage => GetMessageTool
    case ListFolders => ListFoldersTool
    case ListLabels => ListLabelsTool
    case ListDrafts => ListDraftsTool
    case MarkRead => MarkReadTool
    case Star => StarTool
    case Label => LabelTool
    case MoveTo => MoveToTool
    case Archive => ArchiveTool
    case TrashMessages => TrashTool
    case UntrashMessages => UntrashTool
    case CreateDraft => CreateDraftTool
    case UpdateDraft => UpdateDraftTool
    case SendMessage => SendMessageTool
    case SendDraft => SendDraftTool
  }

  /** The provider call `execute` makes for a tool, or none when the arguments do not decode.
      `list_accounts` never reaches it: the HTTP server answers that tool itself. */
  function MethodFor(tool: ToolName, args: Args): Option<ProviderMethod>
    requires tool != ListAccountsTool
  {
    match tool
    case SearchTool => Some(Search)
    case GetThreadTool => Some(GetThread)
    case GetMessageTool => Some(GetMessage)
    case ListFoldersTool => Some(ListFolders)
    case ListLabelsTool => Some(ListLabels)
    case ListDraftsTool => Some(ListDrafts)
    case MarkReadTool => Some(MarkRead)
    case StarTool => Some(Star)
    case LabelTool => Some(Label)
    case MoveToTool => Some(MoveTo)
    case ArchiveTool => Some(Archive)
    case TrashTool => Some(TrashMessages)
    case UntrashTool => Some(UntrashMessages)
    case CreateDraftTool => if args.composeOk then Some(CreateDraft) else None
    case UpdateDraftTool => if args.updateOk then Some(UpdateDraft) else None
    case SendMessageTool => if args.composeOk then Some(SendMessage) else None
    case SendDraftTool => Some(SendDraft)
  }

  /** Under Draftify a compose becomes a draft; an existing draft is held and nothing is called. */
  function DraftifiedMethod(tool: ToolName, args: Args): Option<ProviderMethod> {
    if tool == SendDraftTool then None
    else if args.composeOk then Some(CreateDraft)
    else None
  }
}
