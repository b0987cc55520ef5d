/** The `echo` tool: the message, with an optional prefix in front. */
module EchoTool {
  import opened Php
  import opened Text

  /** The tool's arguments; either may be absent from the call. */
  datatype Arguments = Arguments(message: Option<string>, prefix: Option<string>)

  /** `execute`. A missing message reads as `""`; a prefix that is present,
      even `""`, is put in front with `": "`. The message always closes the
      text, and a prefix is followed by exactly two characters before it. */
  function Execute(args: Arguments): (out: string)
    ensures EndsWith(out, OrElse(args.message, ""))
    ensures args.prefix.None? ==> out == OrElse(args.message, "")
    ensures args.prefix.Some? ==>
      && StartsWith(out, args.prefix.value + ": ")
      && |out| == |args.prefix.value| + 2 + |OrElse(args.message, "")|
  {
    var message := OrElse(args.message, "");
    if args.prefix.Some? then
      EndsWithAppend(args.prefix.value + ": ", message);
      StartsWithAppend(args.prefix.value + ": ", message);
      args.prefix.value + ": " + message
    else
      EndsWithAppend("", message);
      assert "" + message == message;
      message
  }

  /** The message and the prefix can be read back from the text: the
      message is its last characters, the prefix what precedes `": "`. */
  lemma EchoRecoversArguments(message: string, prefix: Option<string>)
    ensures var out := Execute(Arguments(Some(message), prefix));
      && out[|out| - |message|..] == message
      && (prefix.Some? ==> out[..|prefix.value|] == prefix.value && out[|prefix.value|..|prefix.value| + 2] == ": ")
      && (prefix.None? ==> out == message)
  {
    var out := Execute(Arguments(Some(message), prefix));
    if prefix.Some? {
      var p := prefix.value;
      assert out == p + ": " + message;
      assert out[..|p|] == p;
      assert out[|p|..|p| + 2] == ": ";
    }
  }

  /** An empty prefix is not the same as none: it still adds `": "`; a
      missing message echoes as the empty string. */
  lemma EmptyPrefixCounts(message: Option<string>)
    ensures Execute(Arguments(message, Some(""))) == ": " + OrElse(message, "")
    ensures Execute(Arguments(None, None)) == ""
    ensures Execute(Arguments(message, Some(""))) != Execute(Arguments(message, None))
  {
    assert "" + ": " == ": ";
  }
}
