/** The text a category writes: its action-log lines and its statement. */
module Layout {
  import opened Numbers
  import opened Strings

  /** The fixed line width of a category (its `max_chars`). */
  const MaxChars := 30
  /** Descriptions longer than this are cut short in an action line ... */
  const CutAbove := 24
  /** ... to this many characters, followed by `...`. */
  const CutTo := 19

  /** The action-log line of a deposit (`sign` is '+') or of a successful withdrawal
      (`sign` is '-'). The padding is counted from the description as given, before any
      cut, and a negative count pads with nothing. */
  function ActionLine(description: string, amount: int, sign: char): string
  {
    var spaceLeft := MaxChars - |description| - |IntStr(amount)| - 4;
    var shown := if |description| > CutAbove then description[..CutTo] + "..." else description;
    shown + Repeat(" ", spaceLeft) + [sign] + Fixed2(amount)
  }

  /** A description and amount that fit give a line exactly `MaxChars` wide: the
      description on the left, spaces, then the sign and the amount on the right, where
      the amount can be read back. */
  lemma {:induction false} ActionLineFits(description: string, amount: int, sign: char)
    requires |description| <= CutAbove
    requires |description| + |IntStr(amount)| <= 26
    ensures var line, money := ActionLine(description, amount, sign), Fixed2(amount);
      && |line| == MaxChars
      && line[..|description|] == description
      && (forall i :: |description| <= i < MaxChars - 1 - |money| ==> line[i] == ' ')
      && line[MaxChars - 1 - |money|] == sign
      && line[MaxChars - |money|..] == money
      && ParseInt(line[MaxChars - |money|..MaxChars - 3]) == amount
  {
    var line, digits := ActionLine(description, amount, sign), IntStr(amount);
    var left := description + Repeat(" ", MaxChars - |description| - |digits| - 4) + [sign];
    assert line == left + (digits + ".00");
    IntStrRoundTrip(amount);
    assert line[|left|..MaxChars - 3] == digits;
  }

  /** A description of more than `CutAbove` characters shows its first `CutTo` characters
      and `...`; since the padding is counted from the uncut length, it is never padded,
      and the line is `MaxChars` wide only when `str(amount)` has four characters
      (four digits, or a minus sign and three). */
  lemma {:induction false} ActionLineCut(description: string, amount: int, sign: char)
    requires |description| > CutAbove
    ensures var line := ActionLine(description, amount, sign);
      && line == description[..CutTo] + "..." + [sign] + Fixed2(amount)
      && |line| == 26 + |IntStr(amount)|
  {
  }

  /** A short description whose amount overflows the column gets no padding: the line
      is wider than `MaxChars`. */
  lemma {:induction false} ActionLineCrowded(description: string, amount: int, sign: char)
    requires |description| <= CutAbove
    requires |description| + |IntStr(amount)| > 26
    ensures var line := ActionLine(description, amount, sign);
      && line == description + [sign] + Fixed2(amount)
      && |line| > MaxChars
  {
  }

  /** The line a withdrawal that lacks funds logs. */
  function WithdrawalFailedLine(amount: int, description: string): string
  {
    "Withdrawal of " + IntStr(amount) + " failed - " + description
  }

  /** The line a transfer that lacks funds logs on its source. */
  function TransferFailedLine(amount: int, destination: string): string
  {
    "Transfer of " + IntStr(amount) + " to " + destination + " failed"
  }

  /** The statement's title: the name between two equal runs of `*`, each
      `(MaxChars - |name|) // 2` long. */
  function Title(name: string): (t: string)
    ensures |name| <= MaxChars ==> |t| == MaxChars - |name| % 2
    ensures |name| >= MaxChars - 1 ==> t == name
    ensures |t| >= |name| && (|t| - |name|) % 2 == 0
    ensures var k := (|t| - |name|) / 2;
      && t[k..k + |name|] == name
      && (forall i :: 0 <= i < k ==> t[i] == '*')
      && (forall i :: k + |name| <= i < |t| ==> t[i] == '*')
  {
    var stars := FloorDiv(MaxChars - |name|, 2);
    Repeat("*", stars) + name + Repeat("*", stars)
  }

  lemma {:induction false} TitleWithoutNewline(name: string)
    requires '\n' !in name
    ensures '\n' !in Title(name)
  {
    var t := Title(name);
    var k := (|t| - |name|) / 2;
    forall i | 0 <= i < |t|
      ensures t[i] != '\n'
    {
      if k <= i < k + |name| {
        assert t[i] == t[k..k + |name|][i - k];
      }
    }
  }

  lemma {:induction false} Fixed2WithoutNewline(n: int)
    ensures '\n' !in Fixed2(n)
  {
    var s := Fixed2(n);
    var digits := NatStr(if n < 0 then -n else n);
    forall i | 0 <= i < |s|
      ensures s[i] != '\n'
    {
      if n < 0 && i == 0 {
      } else if i < |IntStr(n)| {
        assert s[i] == digits[if n < 0 then i - 1 else i];
      }
    }
  }

  /** The footer of a statement. */
  function Footer(balance: int): string
  {
    "Total: " + Fixed2(balance)
  }

  /** `str(category)`: a blank line, the title, the action log one line per entry, and
      the footer with the balance. */
  function StatementText(name: string, actions: seq<string>, balance: int): string
  {
    "\n" + Title(name) + "\n" + Join(actions, "\n") + "\n" + Footer(balance)
  }

  /** Read line by line, a statement is an empty line, the title, each logged action in
      order, and the footer. */
  lemma {:induction false} StatementLines(name: string, actions: seq<string>, balance: int)
    requires '\n' !in name
    requires |actions| >= 1
    requires forall i :: 0 <= i < |actions| ==> '\n' !in actions[i]
    ensures Split(StatementText(name, actions, balance))
         == ["", Title(name)] + actions + [Footer(balance)]
  {
    var title, log, footer := Title(name), Join(actions, "\n"), Footer(balance);
    TitleWithoutNewline(name);
    Fixed2WithoutNewline(balance);
    assert '\n' !in footer by {
      assert forall i :: 7 <= i < |footer| ==> footer[i] == Fixed2(balance)[i - 7];
    }
    var head := "\n" + title;
    assert Split(head) == ["", title] by {
      SplitWithoutNewline(title);
      SplitLeadingNewline(title);
    }
    var upToLog := head + "\n" + log;
    assert Split(upToLog) == ["", title] + actions by {
      SplitJoin(actions);
      SplitAtNewline(head, log);
    }
    SplitWithoutNewline(footer);
    SplitAtNewline(upToLog, footer);
  }
}
