/** A compose text on its way to a pod: undo_compose_escaping, escape_expansion and what
    Kubernetes then does to command and args (tools/k8srender/objects.py, container.py). */
module Escaping {

  // --- Compose ---------------------------------------------------------------

  /** What `docker compose config` prints for an author's text: every `$` doubled. */
  function Doubled(text: string): string {
    if text == "" then "" else
    (if text[0] == '$' then "$$" else [text[0]]) + Doubled(text[1..])
  }

  /** str.replace("$$", "$"): leftmost pairs first, none overlapping. */
  function Undone(text: string): string {
    if text == "" then "" else
    if "$$" <= text then "$" + Undone(text[2..]) else [text[0]] + Undone(text[1..])
  }

  datatype Value =
    | Text(text: string)
    | Plain(id: int)                        // a number, a boolean or null
    | Items(items: seq<Value>)
    | Fields(fields: map<string, Value>)

  function DoubledValue(v: Value): Value {
    match v
    case Text(t) => Text(Doubled(t))
    case Plain(_) => v
    case Items(items) => Items(seq(|items|, i requires 0 <= i < |items| => DoubledValue(items[i])))
    case Fields(fields) => Fields(map k | k in fields :: DoubledValue(fields[k]))
  }

  /** undo_compose_escaping */
  function UndoneValue(v: Value): Value {
    match v
    case Text(t) => Text(Undone(t))
    case Plain(_) => v
    case Items(items) => Items(seq(|items|, i requires 0 <= i < |items| => UndoneValue(items[i])))
    case Fields(fields) => Fields(map k | k in fields :: UndoneValue(fields[k]))
  }

  lemma {:induction false} UndoneUndoesDoubled(text: string)
    ensures Undone(Doubled(text)) == text
  {
    if text != "" {
      UndoneUndoesDoubled(text[1..]);
      var rest := Doubled(text[1..]);
      if text[0] == '$' {
        assert ("$$" + rest)[2..] == rest;
      } else {
        assert ([text[0]] + rest)[0] != '$' && ([text[0]] + rest)[1..] == rest;
      }
    }
  }

  /** The whole model comes back as its author wrote it, however nested. */
  lemma {:induction false} ModelComesBack(v: Value)
    ensures UndoneValue(DoubledValue(v)) == v
  {
    match v
    case Text(t) =>
      UndoneUndoesDoubled(t);
    case Plain(_) =>
    case Items(items) =>
      forall i | 0 <= i < |items| ensures UndoneValue(DoubledValue(items[i])) == items[i] {
        ModelComesBack(items[i]);
      }
      assert UndoneValue(DoubledValue(v)).items == items;
    case Fields(fields) =>
      forall k | k in fields ensures UndoneValue(DoubledValue(fields[k])) == fields[k] {
        ModelComesBack(fields[k]);
      }
      assert UndoneValue(DoubledValue(v)).fields == fields;
  }

  // --- Kubernetes --------------------------------------------------------------

  /** escape_expansion: a `$` that a `$` or a `(` follows is doubled. */
  function Escaped(text: string): string {
    if text == "" then "" else
    (if text[0] == '$' && |text| > 1 && text[1] in "$(" then "$$" else [text[0]]) + Escaped(text[1..])
  }

  // Where the first `)` is, or the length.
  function Closer(text: string): (n: nat)
    ensures n <= |text|
  {
    if text == "" || text[0] == ')' then 0 else 1 + Closer(text[1..])
  }

  /** The expansion of command and args: `$$` folds to `$`, `$(X)` becomes X's value when X is
      defined, and anything else stands. */
  function Expanded(text: string, env: map<string, string>): string
    decreases |text|
  {
    if |text| < 2 || text[0] != '$' then
      (if text == "" then "" else [text[0]] + Expanded(text[1..], env))
    else if text[1] == '$' then "$" + Expanded(text[2..], env)
    else if text[1] == '(' then
      var n := Closer(text[2..]);
      if n < |text| - 2 then
        var name := text[2..2 + n];
        (if name in env then env[name] else "$(" + name + ")") + Expanded(text[2 + n + 1..], env)
      else "$(" + Expanded(text[2..], env)
    else text[..2] + Expanded(text[2..], env)
  }

  lemma {:induction false} ExpandedOne(c: char, rest: string, env: map<string, string>)
    requires c == '$' ==> rest == "" || rest[0] !in "$("
    ensures Expanded([c] + rest, env) == [c] + Expanded(rest, env)
  {
    var text := [c] + rest;
    assert text[1..] == rest;
    if c == '$' && rest != "" {
      // "$x" is passed over as a pair; x alone would be passed over too.
      assert text[2..] == rest[1..] && text[..2] == [c] + [rest[0]];
      assert [c] + ([rest[0]] + Expanded(rest[1..], env)) == ([c] + [rest[0]]) + Expanded(rest[1..], env);
    }
  }

  lemma EscapedStart(text: string)
    ensures text != "" ==> Escaped(text) != "" && Escaped(text)[0] == text[0]
    ensures text == "" ==> Escaped(text) == ""
  {
  }

  /** Kubernetes expands nothing of an escaped text, whatever is defined. */
  lemma {:induction false} ExpandedUndoesEscaped(text: string, env: map<string, string>)
    ensures Expanded(Escaped(text), env) == text
  {
    if text != "" {
      var rest := Escaped(text[1..]);
      ExpandedUndoesEscaped(text[1..], env);
      EscapedStart(text[1..]);
      if text[0] == '$' && |text| > 1 && text[1] in "$(" {
        assert ("$$" + rest)[2..] == rest;
      } else {
        ExpandedOne(text[0], rest, env);
      }
      assert text == [text[0]] + text[1..];
    }
  }

  // --- A container's argv ------------------------------------------------------

  // str(a), whatever it prints of a value that is no text.
  function Shown(v: Value, str: Value -> string): string {
    if v.Text? then v.text else str(v)
  }

  /** _argv */
  function Argv(v: Value, str: Value -> string): seq<string> {
    if v.Items? then seq(|v.items|, i requires 0 <= i < |v.items| => Shown(v.items[i], str))
    else ["sh", "-c", Shown(v, str)]
  }

  /** What the container spec holds for the `command` or `entrypoint` compose printed. */
  function SpecArgv(printed: Value, str: Value -> string): seq<string> {
    var argv := Argv(UndoneValue(printed), str);
    seq(|argv|, i requires 0 <= i < |argv| => Escaped(argv[i]))
  }

  function Started(spec: seq<string>, env: map<string, string>): seq<string> {
    seq(|spec|, i requires 0 <= i < |spec| => Expanded(spec[i], env))
  }

  /** A pod's argv is the compose author's, whatever environment the pod defines. */
  lemma PodRunsTheAuthorsArgv(written: Value, str: Value -> string, env: map<string, string>)
    ensures Started(SpecArgv(DoubledValue(written), str), env) == Argv(written, str)
  {
    ModelComesBack(written);
    var argv := Argv(written, str);
    forall i | 0 <= i < |argv| ensures Expanded(Escaped(argv[i]), env) == argv[i] {
      ExpandedUndoesEscaped(argv[i], env);
    }
  }

  /** escape_expansion leaves alone exactly the texts in which no `$` stands before a `$` or a `(`. */
  lemma {:induction false} EscapedOnlyWhereNeeded(text: string)
    ensures Escaped(text) == text <==> forall i :: 0 <= i < |text| - 1 ==> !(text[i] == '$' && text[i + 1] in "$(")
  {
    if text != "" {
      var rest := text[1..];
      EscapedOnlyWhereNeeded(rest);
      LongerWhenEscaped(rest);
      assert forall i :: 0 <= i < |rest| ==> rest[i] == text[i + 1];
      if !(text[0] == '$' && |text| > 1 && text[1] in "$(") {
        assert ([text[0]] + Escaped(rest))[1..] == Escaped(rest);
        if Escaped(rest) == rest {
          assert forall i :: 0 <= i < |text| - 1 ==> i == 0 || (text[i] == rest[i - 1] && text[i + 1] == rest[i]);
        } else {
          var i :| 0 <= i < |rest| - 1 && rest[i] == '$' && rest[i + 1] in "$(";
          assert text[i + 1] == '$' && text[i + 1 + 1] in "$(";
        }
      }
    }
  }

  lemma {:induction false} LongerWhenEscaped(text: string)
    ensures |Escaped(text)| >= |text|
  {
    if text != "" {
      LongerWhenEscaped(text[1..]);
    }
  }
}
