/** `/help` (app/handlers/help.py): a header line, then one line per entry of the command
    list of app/services/commands.py, joined by blank lines. */
module Help {
  import opened Text

  /** `COMMANDS`, in list order: (command, description). */
  const Commands: seq<(string, string)> := [
    ("statistics", "Статистика за день, неделю, 4 недели"),
    ("goal", "Посмотреть текущую цель"),
    ("update_goal", "Изменить цель"),
    ("delete_last_meal", "Удалить последний приём пищи"),
    ("start", "Регистрация"),
    ("restart", "Удалить профиль и начать заново"),
    ("help", "Список всех команд")
  ]

  const Header: string := "📋 <b>Список доступных команд:</b>\n"
  const Separator: string := "\n\n"

  function CommandLine(c: (string, string)): string {
    "/" + c.0 + " — " + c.1
  }

  function CommandLines(commands: seq<(string, string)>): seq<string> {
    seq(|commands|, i requires 0 <= i < |commands| => CommandLine(commands[i]))
  }

  /** `show_all_commands`: the loop collects the lines, then they are joined. */
  method ShowAllCommands(commands: seq<(string, string)>) returns (text: string)
    ensures text == Join(Separator, [Header] + CommandLines(commands))
  {
    var lines := [Header];
    for i := 0 to |commands|
      invariant |lines| == i + 1 && lines[0] == Header
      invariant forall j :: 0 <= j < i ==> lines[j + 1] == CommandLine(commands[j])
    {
      lines := lines + [CommandLine(commands[i])];
    }
    assert lines == [Header] + CommandLines(commands);
    text := Join(Separator, lines);
  }

  /** Every line after the first, each preceded by the separator. */
  function Prefixed(sep: string, lines: seq<string>): string {
    if lines == [] then "" else sep + lines[0] + Prefixed(sep, lines[1..])
  }

  /** Joining a head line with more lines is the head, then `sep + line` for each line in
      order: one separator per further line. */
  lemma {:induction false} JoinAfterHead(sep: string, head: string, lines: seq<string>)
    ensures Join(sep, [head] + lines) == head + Prefixed(sep, lines)
    decreases lines
  {
    if lines != [] {
      JoinCons(sep, head, lines);
      assert lines == [lines[0]] + lines[1..];
      JoinAfterHead(sep, lines[0], lines[1..]);
      assert head + sep + (lines[0] + Prefixed(sep, lines[1..])) == head + (sep + lines[0] + Prefixed(sep, lines[1..]));
    } else {
      assert [head] + lines == [head];
    }
  }

  /** The help text is the header followed, for each command in list order, by a blank
      line and `/command — description`. */
  lemma HelpTextShape(commands: seq<(string, string)>)
    ensures Join(Separator, [Header] + CommandLines(commands)) == Header + Prefixed(Separator, CommandLines(commands))
    ensures StartsWith(Join(Separator, [Header] + CommandLines(commands)), Header)
  {
    JoinAfterHead(Separator, Header, CommandLines(commands));
    var text := Header + Prefixed(Separator, CommandLines(commands));
    assert text[..|Header|] == Header;
  }

  /** Number of characters of the help text: the header, and for every command a separator
      and its line. */
  function PrefixedLength(sep: string, lines: seq<string>): nat {
    if lines == [] then 0 else |sep| + |lines[0]| + PrefixedLength(sep, lines[1..])
  }

  /** From the offset the first `k` lines take up, `Prefixed(sep, lines)` continues with
      the separator, line `k`, and the lines after it. */
  lemma {:induction false} PrefixedSuffixAt(sep: string, lines: seq<string>, k: nat)
    requires k < |lines|
    ensures PrefixedLength(sep, lines[..k]) <= |Prefixed(sep, lines)|
    ensures Prefixed(sep, lines)[PrefixedLength(sep, lines[..k])..] == sep + lines[k] + Prefixed(sep, lines[k + 1..])
    decreases k
  {
    var rest := Prefixed(sep, lines[1..]);
    var first := sep + lines[0];
    assert Prefixed(sep, lines) == first + rest;
    if k == 0 {
      assert lines[..0] == [];
    } else {
      PrefixedSuffixAt(sep, lines[1..], k - 1);
      assert lines[1..][k - 1] == lines[k];
      assert lines[1..][k..] == lines[k + 1..];
      var o := PrefixedLength(sep, lines[1..][..k - 1]);
      PrefixedLengthCons(sep, lines, k);
      assert (first + rest)[|first| + o..] == rest[o..];
    }
  }

  lemma PrefixedLengthCons(sep: string, lines: seq<string>, k: nat)
    requires 0 < k <= |lines|
    ensures PrefixedLength(sep, lines[..k]) == |sep| + |lines[0]| + PrefixedLength(sep, lines[1..][..k - 1])
  {
    assert lines[..k][0] == lines[0];
    assert lines[..k][1..] == lines[1..][..k - 1];
  }

  /** Joined after a head, line `k` comes after the head, the lines before it and its own
      separator, and is followed by the lines after it. */
  lemma JoinSuffixAt(sep: string, head: string, lines: seq<string>, k: nat)
    requires k < |lines|
    ensures var at := |head| + PrefixedLength(sep, lines[..k]);
      at <= |Join(sep, [head] + lines)|
      && Join(sep, [head] + lines)[at..] == sep + lines[k] + Prefixed(sep, lines[k + 1..])
  {
    JoinAfterHead(sep, head, lines);
    PrefixedSuffixAt(sep, lines, k);
    var o := PrefixedLength(sep, lines[..k]);
    assert (head + Prefixed(sep, lines))[|head| + o..] == Prefixed(sep, lines)[o..];
  }

  /** In the help text, after the header and the lines of the commands before it, come a
      blank line, the line of command `k`, and the lines of the commands after it. */
  lemma HelpLineAt(commands: seq<(string, string)>, k: nat)
    requires k < |commands|
    ensures var text := Join(Separator, [Header] + CommandLines(commands));
      var at := |Header| + PrefixedLength(Separator, CommandLines(commands)[..k]);
      at <= |text|
      && text[at..] == Separator + CommandLine(commands[k]) + Prefixed(Separator, CommandLines(commands)[k + 1..])
  {
    var lines := CommandLines(commands);
    assert lines[k] == CommandLine(commands[k]);
    JoinSuffixAt(Separator, Header, lines, k);
  }

  /** For the bot's own command list, the last line is the one for `/help`. */
  lemma HelpListsHelpLast()
    ensures |CommandLines(Commands)| == 7
    ensures CommandLines(Commands)[6] == "/help — Список всех команд"
  {
  }
}
