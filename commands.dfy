/**
 * The scripts the component injects into the embedded widget. Each is a
 * call expression `name(arg, ...)`; string arguments are wrapped in double
 * quotes without escaping, object arguments are their JSON text.
 */
module Commands {
  import opened Config

  function Quote(s: string): string
  {
    "\"" + s + "\""
  }

  function Join(parts: seq<string>, separator: string): string
  {
    if |parts| == 0 then ""
    else if |parts| == 1 then parts[0]
    else parts[0] + separator + Join(parts[1..], separator)
  }

  /** The reference shape of every injected script: a call of `name` on `args`. */
  function Call(name: string, args: seq<string>): string
  {
    name + "(" + Join(args, ", ") + ")"
  }

  function DeleteHistoryCommand(): (c: string)
    ensures c == Call("deleteHistory", [])
  {
    "deleteHistory()"
  }

  function ResetCommand(obj: JsonText): (c: string)
    ensures c == Call("reset", [obj])
  {
    "reset(" + obj + ")"
  }

  function SetMetaFieldsCommand(obj: JsonText): (c: string)
    ensures c == Call("setMetaFields", [obj])
  {
    "setMetaFields(" + obj + ")"
  }

  function SetSensitiveMetaFieldsCommand(obj: JsonText): (c: string)
    ensures c == Call("setSensitiveMetaFields", [obj])
  {
    "setSensitiveMetaFields(" + obj + ")"
  }

  function SendAuthTokenScript(token: string): (c: string)
    ensures c == Call("sendAuthToken", [Quote(token)])
  {
    "sendAuthToken(\"" + token + "\")"
  }

  /**
   * The initialisation script, built from the current props; the argument
   * order is handle, cluster, greetings, styles, language, metaFields,
   * sensitiveMetaFields.
   */
  function InitializeEmbedScript(p: Props): (c: string)
    ensures c == Call("initializeEmbed",
                      [Quote(p.handle), Quote(p.cluster), Quote(p.greetings),
                       Quote(p.styles), Quote(p.language),
                       p.metaFields, p.sensitiveMetaFields])
  {
    var args := [Quote(p.handle), Quote(p.cluster), Quote(p.greetings),
                 Quote(p.styles), Quote(p.language), p.metaFields, p.sensitiveMetaFields];
    assert Join(args[5..], ", ") == p.metaFields + ", " + p.sensitiveMetaFields;
    assert Join(args[4..], ", ") == Quote(p.language) + ", " + Join(args[5..], ", ");
    assert Join(args[3..], ", ") == Quote(p.styles) + ", " + Join(args[4..], ", ");
    assert Join(args[2..], ", ") == Quote(p.greetings) + ", " + Join(args[3..], ", ");
    assert Join(args[1..], ", ") == Quote(p.cluster) + ", " + Join(args[2..], ", ");
    assert Join(args, ", ") == Quote(p.handle) + ", " + Join(args[1..], ", ");
    "initializeEmbed(" + Quote(p.handle) + ", " + Quote(p.cluster) + ", " + Quote(p.greetings)
      + ", " + Quote(p.styles) + ", " + Quote(p.language) + ", " + p.metaFields
      + ", " + p.sensitiveMetaFields + ")"
  }

  /**
   * Commands of different kinds are never equal, so the pending set never
   * coalesces, say, a reset with a meta-field update.
   */
  lemma CommandKindsDistinct(a: JsonText, b: JsonText)
    ensures DeleteHistoryCommand() != ResetCommand(a)
    ensures DeleteHistoryCommand() != SetMetaFieldsCommand(a)
    ensures DeleteHistoryCommand() != SetSensitiveMetaFieldsCommand(a)
    ensures ResetCommand(a) != SetMetaFieldsCommand(b)
    ensures ResetCommand(a) != SetSensitiveMetaFieldsCommand(b)
    ensures SetMetaFieldsCommand(a) != SetSensitiveMetaFieldsCommand(b)
  {
    assert DeleteHistoryCommand()[0] == 'd';
    assert ResetCommand(a)[0] == 'r';
    assert SetMetaFieldsCommand(a)[0] == 's' && SetMetaFieldsCommand(a)[3] == 'M';
    assert SetSensitiveMetaFieldsCommand(a)[0] == 's';
    assert SetMetaFieldsCommand(b)[0] == 's';
    assert SetSensitiveMetaFieldsCommand(b)[0] == 's' && SetSensitiveMetaFieldsCommand(b)[3] == 'S';
  }

  /**
   * Commands of one kind are equal only when their arguments serialise
   * alike, so the pending set coalesces exactly the repeated requests.
   */
  lemma CommandArgumentsDetermined(a: JsonText, b: JsonText)
    ensures ResetCommand(a) == ResetCommand(b) ==> a == b
    ensures SetMetaFieldsCommand(a) == SetMetaFieldsCommand(b) ==> a == b
    ensures SetSensitiveMetaFieldsCommand(a) == SetSensitiveMetaFieldsCommand(b) ==> a == b
  {
    assert ResetCommand(a)[6..|ResetCommand(a)| - 1] == a;
    assert ResetCommand(b)[6..|ResetCommand(b)| - 1] == b;
    assert SetMetaFieldsCommand(a)[14..|SetMetaFieldsCommand(a)| - 1] == a;
    assert SetMetaFieldsCommand(b)[14..|SetMetaFieldsCommand(b)| - 1] == b;
    assert SetSensitiveMetaFieldsCommand(a)[23..|SetSensitiveMetaFieldsCommand(a)| - 1] == a;
    assert SetSensitiveMetaFieldsCommand(b)[23..|SetSensitiveMetaFieldsCommand(b)| - 1] == b;
  }
}
