/**
  The `langchain_core.messages` package: thirty-two message classes and
  helpers from nine submodules. `__all__` is not written by hand but taken
  from the registry's keys. An unknown name raises `AttributeError`.
 */
module MessagesPackage {
  import opened PyDict
  import opened Resolution
  import opened Namespaces

  const PACKAGE: string := "langchain_core.messages"

  /** The `_message_types` literal, entry by entry. */
  const MESSAGE_TYPE_ENTRIES: seq<(string, string)> := [
    ("AIMessage", "ai"),
    ("AIMessageChunk", "ai"),
    ("BaseMessage", "base"),
    ("BaseMessageChunk", "base"),
    ("ChatMessage", "chat"),
    ("ChatMessageChunk", "chat"),
    ("FunctionMessage", "function"),
    ("FunctionMessageChunk", "function"),
    ("HumanMessage", "human"),
    ("HumanMessageChunk", "human"),
    ("RemoveMessage", "modifier"),
    ("SystemMessage", "system"),
    ("SystemMessageChunk", "system"),
    ("ToolCall", "tool"),
    ("ToolCallChunk", "tool"),
    ("ToolMessage", "tool"),
    ("ToolMessageChunk", "tool"),
    ("InvalidToolCall", "tool"),
    ("AnyMessage", "utils"),
    ("MessageLikeRepresentation", "utils"),
    ("_message_from_dict", "utils"),
    ("convert_to_messages", "utils"),
    ("convert_to_openai_messages", "utils"),
    ("filter_messages", "utils"),
    ("get_buffer_string", "utils"),
    ("merge_message_runs", "utils"),
    ("message_chunk_to_message", "utils"),
    ("messages_from_dict", "utils"),
    ("messages_to_dict", "utils"),
    ("merge_content", "base"),
    ("message_to_dict", "base"),
    ("trim_messages", "utils")
  ]

  const MESSAGE_TYPES: Dict := FromEntries(MESSAGE_TYPE_ENTRIES)

  /** `__all__ = list(_message_types.keys())` */
  const ALL: seq<string> := MESSAGE_TYPES.order

  const MESSAGES: Namespace := Namespace(PACKAGE, MESSAGE_TYPES.table, ALL, AttributeError)

  /** The names of the literal, written out so that the verifier compares
      the string literals themselves. */
  const WRITTEN_NAMES: seq<string> := [
    "AIMessage", "AIMessageChunk", "BaseMessage", "BaseMessageChunk",
    "ChatMessage", "ChatMessageChunk", "FunctionMessage", "FunctionMessageChunk",
    "HumanMessage", "HumanMessageChunk", "RemoveMessage", "SystemMessage",
    "SystemMessageChunk", "ToolCall", "ToolCallChunk", "ToolMessage",
    "ToolMessageChunk", "InvalidToolCall", "AnyMessage", "MessageLikeRepresentation",
    "_message_from_dict", "convert_to_messages", "convert_to_openai_messages", "filter_messages",
    "get_buffer_string", "merge_message_runs", "message_chunk_to_message", "messages_from_dict",
    "messages_to_dict", "merge_content", "message_to_dict", "trim_messages"
  ]

  lemma EntryNames()
    ensures Names(MESSAGE_TYPE_ENTRIES) == WRITTEN_NAMES
  {
  }

  lemma WrittenNamesDistinct()
    ensures |WRITTEN_NAMES| == 32 && NoDuplicates(WRITTEN_NAMES)
  {
  }

  /** `__all__` lists the registry's keys in the order they are written:
      thirty-two distinct names, exactly the names that can resolve. */
  lemma DeclaredIsRegistryKeys()
    ensures ALL == Names(MESSAGE_TYPE_ENTRIES)
    ensures |ALL| == 32 && NoDuplicates(ALL)
    ensures forall n :: n in ALL <==> n in MESSAGES.registry
  {
    EntryNames();
    WrittenNamesDistinct();
    FromEntriesOrder(MESSAGE_TYPE_ENTRIES);
    FromEntriesWellFormed(MESSAGE_TYPE_ENTRIES);
    assert MESSAGES.registry == FromEntries(MESSAGE_TYPE_ENTRIES).table;
  }

  /** The registry maps each written name to the owner written beside it. */
  lemma OwnerAsWritten(i: nat)
    requires i < |MESSAGE_TYPE_ENTRIES|
    ensures MESSAGE_TYPE_ENTRIES[i].0 in MESSAGES.registry
    ensures MESSAGES.registry[MESSAGE_TYPE_ENTRIES[i].0] == MESSAGE_TYPE_ENTRIES[i].1
  {
    EntryNames();
    WrittenNamesDistinct();
    FromEntriesLookup(MESSAGE_TYPE_ENTRIES, i);
  }

  /** A name outside `__all__` that is not already a global raises
      `AttributeError` naming the name and `langchain_core.messages`, and
      changes nothing. The underscore name `_message_from_dict` is
      registered like any other and resolves from `utils`. */
  lemma Closure<V>(units: map<string, Submodule<V>>, initial: map<string, V>, st: State<V>, name: string)
    requires Valid(MESSAGES, units, initial, st)
    requires name !in initial
    ensures name !in ALL ==>
              Access(MESSAGES, units, st, name) == (Err(UnknownName(AttributeError, "langchain_core.messages", name)), st)
    ensures name in ALL <==> name in MESSAGES.registry
    ensures Access(MESSAGES, units, st, name).0.Ok? <==> Resolvable(MESSAGES, units, name)
    ensures Resolvable(MESSAGES, units, name) ==> Access(MESSAGES, units, st, name).0 == Ok(Attr(MESSAGES, units, name))
    ensures "_message_from_dict" in MESSAGES.registry && "_message_from_dict" in ALL
    ensures MESSAGES.registry["_message_from_dict"] == "utils"
  {
    DeclaredIsRegistryKeys();
    AccessClosure(MESSAGES, units, initial, st, name);
    OwnerAsWritten(20);
  }

  /** The five names owned by `tool`. */
  const TOOL_NAMES: seq<string> := ["ToolCall", "ToolCallChunk", "ToolMessage", "ToolMessageChunk", "InvalidToolCall"]

  /** Reading the five `tool` names one after the other from a fresh package
      loads `tool` (its code run to completion) at most once; each read yields the same-named
      attribute of `tool` whenever `tool` provides it. */
  lemma ToolNamesLoadOnce<V>(units: map<string, Submodule<V>>, initial: map<string, V>, i: nat)
    requires forall n :: n in TOOL_NAMES ==> n !in initial
    requires i < |TOOL_NAMES|
    ensures TOOL_NAMES[i] in MESSAGES.registry && MESSAGES.registry[TOOL_NAMES[i]] == "tool"
    ensures LoadCount(Run(MESSAGES, units, Fresh(initial), TOOL_NAMES).1, "tool") <= 1
    ensures "tool" in units && units["tool"].Defines? && TOOL_NAMES[i] in units["tool"].attrs
            ==> Run(MESSAGES, units, Fresh(initial), TOOL_NAMES).0[i] == Ok(units["tool"].attrs[TOOL_NAMES[i]])
  {
    OwnerAsWritten(13 + i);
    assert TOOL_NAMES[i] == MESSAGE_TYPE_ENTRIES[13 + i].0;
    LoadsAtMostOnce(MESSAGES, units, initial, TOOL_NAMES, "tool");
    FreshValid(MESSAGES, units, initial);
    RunResultsAgree(MESSAGES, units, initial, Fresh(initial), TOOL_NAMES, i);
  }
}
