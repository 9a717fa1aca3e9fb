/**
 * `consoleMethod(...args)` of addon/content/head.js: forward a console call
 * to the content process over the message manager, after making sure its
 * second argument is not null or undefined.
 */
module FrameScripts {
  import opened Events

  /** The message name `consoleMethod` sends. */
  const ConsoleMessage: string := "devtools:test:console"

  /** The error thrown when `loadFrameScripts()` has not set the message manager yet. */
  const NotLoadedError: string := "`loadFrameScripts()` must be called before using frame scripts."

  datatype Message = Message(name: string, data: seq<Value>)

  /** What a call does: send one message, or throw. */
  datatype Outcome = Sent(message: Message) | Threw(error: string)

  /** `v == null`, which holds for `null` and for `undefined`. */
  predicate Nullish(v: Value)
  {
    v.Undefined? || v.Null?
  }

  /** `args[i]`, which is `undefined` past the end. */
  function ArgAt(args: seq<Value>, i: nat): Value
  {
    if i < |args| then args[i] else Undefined
  }

  /**
   * The arguments as sent: the second one is `""` when it was null or
   * undefined (assigning it grows a shorter list to two entries, the
   * missing first one reading as undefined) and every other entry is
   * unchanged.
   */
  function NormalizedArgs(args: seq<Value>): (r: seq<Value>)
    ensures |r| == if |args| < 2 then 2 else |args|
    ensures r[1] == if Nullish(ArgAt(args, 1)) then Str("") else args[1]
    ensures forall i :: 0 <= i < |r| && i != 1 ==> r[i] == ArgAt(args, i)
  {
    if |args| >= 2 && !Nullish(args[1]) then args
    else if |args| >= 2 then args[1 := Str("")]
    else [ArgAt(args, 0), Str("")]
  }

  /** The second argument sent is never null or undefined, so normalising twice changes nothing. */
  lemma NormalizedArgsIdempotent(args: seq<Value>)
    ensures !Nullish(NormalizedArgs(args)[1])
    ensures NormalizedArgs(NormalizedArgs(args)) == NormalizedArgs(args)
  {
  }

  /**
   * `consoleMethod`: throw if frame scripts are not loaded; otherwise
   * replace a null or undefined `args[1]` by `""` and send the arguments.
   */
  method ConsoleMethod(frameScriptsLoaded: bool, args: seq<Value>) returns (outcome: Outcome)
    ensures !frameScriptsLoaded ==> outcome == Threw(NotLoadedError)
    ensures frameScriptsLoaded ==> outcome == Sent(Message(ConsoleMessage, NormalizedArgs(args)))
  {
    if !frameScriptsLoaded {
      return Threw(NotLoadedError);
    }
    var a := args;
    if Nullish(ArgAt(a, 1)) {
      if |a| < 2 {
        a := [ArgAt(a, 0), Undefined];
      }
      a := a[1 := Str("")];
    }
    outcome := Sent(Message(ConsoleMessage, a));
  }
}
