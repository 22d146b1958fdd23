# Budget categories and the spend chart, in Dafny

This project models a small budget application. A **category** (food, clothing, …) has:

- a ledger of deposits;
- a log of the actions taken on it, one text line per action;
- a running balance;
- a running total of the money withdrawn from it.

A category supports deposits, withdrawals, transfers to another category, a funds check, a balance query and a printable statement. The statement is a title line of stars around the category's name, the action log, and a `Total:` line.

The **spend chart** draws one column per category. A column is a bar of `o`s giving, in steps of ten percent, how much the category has spent relative to its balance. The category names are written vertically under the columns.

The project is five modules:

- `Numbers` (`numbers.dfy`) models Python's floor division, `str` of an integer and `"{:.2f}"` of an integer amount.
- `Strings` (`strings.dfy`) models string repetition, `"\n".join` and `split("\n")`. The last is used only as a way to read printed text back line by line.
- `Layout` (`layout.dfy`) models the text a category writes: action lines, failure lines, the title, the footer and the statement.
- `Ledger` (`ledger.dfy`) models the `Category` class. It is a Dafny class whose methods update its fields in place. Its invariant `Valid()` says two things:
  - the balance equals the deposits less the withdrawals;
  - every ledger record came with a logged action.
- `Chart` (`chart.dfy`) models `create_spend_chart`:
  - a specification `SpendChart` on the categories' names, balances and withdrawals;
  - the source's nested loops as methods (`BarRow`, `PrintBars`, `NameLine`, `PrintNames`, `CreateSpendChart`), each proved equal to that specification;
  - lemmas that state what the printed chart shows.

Printing is modelled as a sequence of lines. Python's `max` of an empty sequence raises `ValueError`. Both `str(category)` (with an empty ledger) and the chart (with no categories) can reach that `max`. Their result is therefore `Rendered(value)`, or `MaxOfEmpty(printed)` carrying the lines printed before the error.

## Model

| member | source | states |
|---|---|---|
| `Numbers.FloorDiv` | code.py:106 | Python's `//`: the quotient rounded toward negative infinity, as two-sided bounds for a positive and for a negative divisor |
| `Numbers.DigitChar` | code.py:17 | each digit of `str` is a decimal digit character that reads back as the digit it writes |
| `Numbers.NatStr` | code.py:17 | `str` of a natural number is a non-empty run of decimal digits without a leading zero; it is one character long exactly for numbers below ten |
| `Numbers.IntStr` | code.py:17 | `str` of an integer is non-empty and starts with `-` exactly when the number is negative |
| `Numbers.IntStrRoundTrip` | code.py:17 | `str` of an integer reads back as the same integer, so the printed amount is unambiguous |
| `Numbers.Fixed2RoundTrip` | code.py:19 | the two-decimal amount is the integer's digits followed by `.00`, and the part before `.00` reads back as the amount |
| `Strings.Repeat` | code.py:18-24 | `s * n` is empty when `n` is not positive, has `n` times the length of `s` otherwise, and holds only characters of `s` |
| `Strings.RepeatCycles` | code.py:18-24 | the copies of `s` follow one another: position `i` of `s * n` holds `s[i % len(s)]` |
| `Strings.SplitJoin` | code.py:68 | lines without newlines, joined with newlines, split back into the same lines |
| `Layout.ActionLineFits` | code.py:15-24 | an action line whose description has at most 24 characters and fits next to the amount is exactly 30 wide. It holds, in order: the description, blanks, the sign one column before the amount, and the amount, which reads back as the number deposited or withdrawn |
| `Layout.ActionLineCut` | code.py:20-22 | a description over 24 characters is cut to its first 19 followed by `...`. The padding is counted from the uncut length, so it is always empty, and the line is 26 plus the length of `str(amount)` wide |
| `Layout.ActionLineCrowded` | code.py:18-24 | a short description whose amount does not fit gets no padding, and the line is wider than 30 |
| `Layout.Title` | code.py:63-66 | the title is the name between two equal runs of `*`. It is 30 or 29 wide (by the name's parity) when the name has at most 30 characters, and is the bare name once the name has 29 or more |
| `Layout.StatementLines` | code.py:61-82 | read line by line, a statement is an empty line, the title, each logged action in order, and `Total:` with the balance |
| `Ledger.Category.constructor` | code.py:4-10 | a new category has its name, an empty ledger and log, a zero balance and nothing withdrawn, and satisfies the invariant |
| `Ledger.Category.RecordAction` | code.py:12-13 | appends one line to the action log and changes nothing else |
| `Ledger.Category.GetBalance` | code.py:45-46 | the balance is the sum of the deposits less the total withdrawn |
| `Ledger.Category.CheckFunds` | code.py:58-59 | funds suffice exactly when the amount is at most the balance |
| `Ledger.Category.Deposit` | code.py:15-25 | records the entry, logs one `+` action line, raises the balance by the amount, leaves `withdrawn` alone, and keeps the invariant |
| `Ledger.Category.Withdraw` | code.py:27-43 | succeeds exactly when the old balance covers the amount. On success it logs a `-` line, lowers the balance and raises `withdrawn` by the amount. On failure it logs only the failure line. It never touches the ledger and keeps the invariant |
| `Ledger.Category.Transfer` | code.py:48-56 | succeeds exactly when this category's balance covers the amount. The money then leaves this category as a withdrawal and arrives at the destination as a deposit; a transfer to itself ends with an unchanged balance. On failure this category logs only the failure line and the destination is untouched. Both invariants are kept |
| `Ledger.Category.Statement` | code.py:61-82 | with an empty ledger `max` raises before anything is printed. Otherwise the text splits into the empty line, the title, the action log and the total |
| `Ledger.Scenario` | code.py:84-92 | the demo session leaves food with balance 210 after withdrawing 320, and shopping with balance 250 after withdrawing 50, with the ledger and log sizes that follow |
| `Chart.PercentageIsFloor` | code.py:103-106 | a category's percentage is 0 for a zero balance, otherwise the floor of `100 * withdrawn / balance` |
| `Chart.RowLabel` | code.py:100 | the label of a bar row is six characters wide |
| `Chart.RowLabelShape` | code.py:100 | the label shows the threshold right-aligned after a blank, where it reads back as the threshold, and ends in ` \|` |
| `Chart.Row` | code.py:99-114 | a bar row is `6 + 3 * n` characters wide for `n` categories |
| `Chart.RowLayout` | code.py:100-113 | a bar row starts with its label, and category `j`'s bar sits at column `7 + 3 * j` between two blanks |
| `Chart.MaxNameLength` | code.py:119 | `max(len(name))` is at least every name's length and equal to one of them |
| `Chart.NameRow` | code.py:121-128 | a row of the name block is `5 + 3 * n` characters wide |
| `Chart.NameRowLayout` | code.py:121-128 | in row `i` of the name block, column `6 + 3 * j` holds the `i`-th character of name `j` or a blank past its end; every other column is blank |
| `Chart.SpendChart` | code.py:97-128 | the chart completes exactly when there is at least one category |
| `Chart.ChartLines` | code.py:97-128 | the chart, line by line: an empty line, the heading, bar row `k` for threshold `100 - 10 * k` for `k` from 0 to 10, the separator, and one name row per character of the longest name |
| `Chart.BarMeansPercentage` | code.py:99-113 | in bar row `k`, category `j`'s column holds `o` exactly when its percentage reaches the row's threshold, and a blank otherwise |
| `Chart.BarsAreContiguous` | code.py:99-113 | bars grow from the bottom: an `o` at one threshold implies an `o` at every lower threshold in the same column |
| `Chart.ZeroBalanceBar` | code.py:103-104 | a category with a zero balance shows an `o` only in the bottom (0 %) row, whatever it withdrew |
| `Chart.NameColumn` | code.py:118-128 | reading down category `j`'s column, the name block spells its name, then blanks to the end |
| `Chart.NameBlockHeight` | code.py:119-121 | the name block is exactly as tall as the longest name |
| `Chart.EmptyChart` | code.py:97-119 | with no categories, the chart prints the heading, eleven rows holding only their labels and a separator without dashes, then raises at `max` |
| `Chart.BarRow` | code.py:100-114 | the loop over the categories builds exactly the bar row of the specification |
| `Chart.NameLine` | code.py:122-128 | the loop over the names builds exactly the name row of the specification |
| `Chart.PrintBars` | code.py:98-116 | the loop over the thresholds prints exactly the heading, the eleven bar rows and the separator of the specification |
| `Chart.PrintNames` | code.py:119-128 | the loop over the character positions prints exactly the name block of the specification |
| `Chart.CreateSpendChart` | code.py:97-128 | `create_spend_chart` prints exactly the lines of the specification, and raises exactly when the specification does |

## Left out

- Amounts are integers. A float amount, and the float rounding of `"{:.2f}".format(n / 1.0)` for integers too large for a double, are not modelled: `Fixed2` is the integer's digits followed by `.00`.
- Ledger.Category.Deposit: does not model the exceptions Python raises for huge amounts. Past the range of a double, `n / 1.0` at code.py:19 raises `OverflowError`; past 4300 digits, `str` at code.py:17 raises `ValueError` on recent Pythons. Both come after the ledger append at code.py:16, so the source is left with a ledger entry that has no action line and no balance update. The model's deposit always completes and keeps the invariant.
- Ledger.Category.Withdraw: does not model the same exceptions. On success they come at code.py:29 and 31; on failure the `str` inside the f-string at code.py:42 raises `ValueError` past 4300 digits. Every one of them comes before any field changes, so the source's state stays as it was, while the model's withdrawal completes or logs its failure line.
- Ledger.Category.Transfer: does not model these exceptions either. On success the withdrawal half (code.py:51) converts the amount first and raises at code.py:29 or 31, before any field changes, so the deposit at code.py:52 is never reached and both categories stay as they were. On failure the `str` inside the f-string at code.py:55 raises before the failure line is logged. The model's transfer always completes.
- `int(this_amount)` at the top of `transfer` is the identity on integers and is omitted.
- The default description `"None"` of `deposit` and `withdraw` is not modelled: callers always pass a description.
- `print` is modelled as appending lines to a result. `end=""` joins the pieces of one line. The demo's own `print(food)`, `print(shopping)` and the final `create_spend_chart` call (code.py:93-94, 131) are not modelled. Neither are the two categories `it` and `clothing` (code.py:86-87), which exist only for that call, nor the unused `itertools` import.
- In `__str__`, the loop over the ledger (code.py:72-79) only ever appends empty strings, because every record has just the keys `amount` and `description`. `''.join(final_list)` is therefore empty and is left out. So are the unused `max_num_width` value (only its `ValueError` on an empty ledger is kept) and `total_formatted`.
- Ledger.Category.Statement: does not model the `OverflowError` that `self.final_total / 1.0` at code.py:71 raises once the balance is past the range of a double; the model renders the statement for every balance.
- Ledger.Category.Statement: states the line structure only when neither the name nor any logged line contains a newline. With a newline inside, the text is still modelled exactly, but the line-by-line reading does not apply.
- The chart reads each category's name, balance and withdrawals through a `Standing` snapshot. It does not model categories that change while the chart is being printed; the source cannot do that either.
