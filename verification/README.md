# Investment tracker ledger in Dafny

This project models the `InvestmentTracker` of `streamlit_track.py`, a
Streamlit page that keeps a personal list of investments in a JSON file.
The tracker holds a portfolio: an ordered list of records
`{name, amount, price_per_unit}`. It loads that list from
`portfolio.json` when it is created. It appends one record per
`add_investment` call and then rewrites the whole file. It reports the
total value as the sum of `amount * price_per_unit`. The sidebar form adds
a record only when the button was pressed, the name is non-empty and both
numbers are strictly positive.

Two modules:

- `Portfolio` (`portfolio.dfy`): the `Investment` record, the append
  operation, the total value, and the validity predicate of the form's
  guard. `TotalValue` is the mathematical sum. `CalculateTotalValue` is
  the left-to-right accumulation that Python's `sum` performs. It is proved
  equal to `TotalValue`.
- `Tracker` (`tracker.dfy`): the tracker object, meaning a portfolio plus
  its backing file. It has `load_portfolio` (with the fallback to an empty
  portfolio), `save_portfolio`, `add_investment` and the sidebar
  submission. The file is abstract: `FileState` says what reading it would
  yield. Because Streamlit re-runs the whole script on every interaction,
  each run re-opens the tracker from the file. `ReopenAfterSubmit` shows
  that a submission survives that re-run.

Python floats are modelled as exact `real` numbers.

## Model

| member | source | states |
|---|---|---|
| Portfolio.Append | streamlit_track.py:20-26 | the result is one longer than the portfolio, keeps every earlier record at its index, and ends with a record holding exactly the given name, amount and price |
| Portfolio.TotalValueNonNegative | streamlit_track.py:29-30 | when no record has a negative amount or price, the total is non-negative |
| Portfolio.TotalValueOfEmpty | streamlit_track.py:29-30 | the total of the empty portfolio is 0 |
| Portfolio.TotalValueConcat | streamlit_track.py:30 | the total is additive: the total of two portfolios joined is the sum of their totals |
| Portfolio.TotalValueAfterAppend | streamlit_track.py:20-30 | after adding `(name, a, p)` the total is the previous total plus `a * p` |
| Portfolio.TotalValueOfValidPortfolio | streamlit_track.py:41-42 | for a portfolio whose records all passed the form's guard, the total is 0 exactly when it is empty and strictly positive otherwise |
| Portfolio.CalculateTotalValue | streamlit_track.py:29-30 | the first-to-last accumulation starting from 0 yields the portfolio's total value |
| Tracker.Load | streamlit_track.py:9-14 | a missing or undecodable file yields an empty portfolio; any other read failure is an error; a decoded list is returned as is |
| Tracker.Save | streamlit_track.py:16-18 | loading the saved file gives back exactly the saved portfolio |
| Tracker.Open | streamlit_track.py:5-7 | opening fails exactly on a read error the loader does not catch; otherwise the tracker keeps the file and its portfolio is what the file loads to |
| Tracker.AddInvestment | streamlit_track.py:20-27 | the portfolio becomes the old one with the record appended, and the file then loads to that new portfolio |
| Tracker.Submit | streamlit_track.py:41-42 | the tracker is unchanged exactly when the guard fails; when the guard holds the result is `add_investment` of the entered values |
| Tracker.SubmitRejectsInvalid | streamlit_track.py:41-42 | an empty name, an amount `<= 0` or a price `<= 0` leaves the tracker, and so the portfolio's length, unchanged |
| Tracker.SubmitIsAppendOnly | streamlit_track.py:26 | a submission grows the portfolio by at most one record and keeps all earlier records as a prefix |
| Tracker.SubmitPreservesValidity | streamlit_track.py:41-42 | if every record satisfies the guard before a submission, every record satisfies it afterwards |
| Tracker.SubmitTotalValue | streamlit_track.py:20-42 | an accepted submission raises the total by `amount * price_per_unit`; a rejected one leaves it equal |
| Tracker.ReopenAfterSubmit | streamlit_track.py:33-42 | for a tracker in step with its file, re-opening from the file after a submission gives back the submitted state |

## Left out

- The Streamlit calls (title, headers, text and number inputs, success message, the numbered listing of records, the display of the total, lines 35-54) are presentation only. The button press is a `pressed` parameter of `Submit`.
- File and JSON I/O is abstract. `FileState` stands for what a read yields. A file whose JSON parses to something other than a list of records is not modelled. The model treats JSON encoding and decoding of names and numbers as exact.
- Tracker.Save: a failing write (which the source lets propagate as an exception) is not modelled; saving always succeeds.
- The file name parameter of the constructor is not modelled; the tracker has exactly one file.
- Float rounding: `amount * price_per_unit` and the sum are exact `real` arithmetic, so the totals are exact rather than IEEE-754 results.
- The number inputs' `min_value=0.0` is a widget constraint, not a check in the tracker. `Submit` does not assume it; its own guard rejects zero and negative values anyway.
