/**
 The `InvestmentTracker` of streamlit_track.py: a portfolio kept in memory
 together with the JSON file it is loaded from and saved to, the
 `add_investment` operation, and the sidebar form's submission guard.

 The file is abstract: `FileState` says what reading it would yield. Saving
 replaces the whole file with the current portfolio (overwrite policy).
 A Streamlit run re-executes the whole script, so every user interaction
 starts by re-opening the tracker from the file.
 */
module Tracker {
  import opened Portfolio

  /** What an attempt to read the portfolio file yields. */
  datatype FileState =
    | Missing                             // open() raises FileNotFoundError
    | Json(records: seq<Investment>)      // json.load returns a list of records
    | Undecodable                         // json.load raises JSONDecodeError
    | Unreadable                          // any other error raised while reading

  /** The error `load_portfolio` lets escape (it catches only the missing
      file and the undecodable content). */
  datatype IoError = ReadError

  datatype Result<T> = Ok(value: T) | Err(error: IoError)

  /** An `InvestmentTracker` object: its portfolio and its backing file. */
  datatype InvestmentTracker = InvestmentTracker(portfolio: seq<Investment>, file: FileState)

  /** `load_portfolio`: the decoded records, or an empty portfolio when the
      file is missing or cannot be decoded; other read errors propagate. */
  function Load(file: FileState): (r: Result<seq<Investment>>)
    ensures r.Err? <==> file.Unreadable?
    ensures file.Missing? || file.Undecodable? ==> r == Ok([])
    ensures file.Json? ==> r == Ok(file.records)
  {
    match file
    case Missing => Ok([])
    case Json(records) => Ok(records)
    case Undecodable => Ok([])
    case Unreadable => Err(ReadError)
  }

  /** `save_portfolio`: the file afterwards holds exactly the given
      portfolio, whatever it held before. */
  function Save(p: seq<Investment>): (f: FileState)
    ensures Load(f) == Ok(p)
  {
    Json(p)
  }

  /** The in-memory portfolio is what re-reading the file would give. */
  predicate InSync(t: InvestmentTracker) {
    Load(t.file) == Ok(t.portfolio)
  }

  /** `InvestmentTracker.__init__`: load the portfolio from the file. */
  function Open(file: FileState): (r: Result<InvestmentTracker>)
    ensures r.Err? <==> file.Unreadable?
    ensures r.Ok? ==> r.value.file == file && InSync(r.value)
  {
    match Load(file)
    case Ok(p) => Ok(InvestmentTracker(p, file))
    case Err(e) => Err(e)
  }

  /** `add_investment`: append one record, then save the whole portfolio. */
  function AddInvestment(t: InvestmentTracker, name: string, amount: real, pricePerUnit: real): (r: InvestmentTracker)
    ensures r.portfolio == Append(t.portfolio, name, amount, pricePerUnit)
    ensures InSync(r)
  {
    var p := Append(t.portfolio, name, amount, pricePerUnit);
    InvestmentTracker(p, Save(p))
  }

  /** The sidebar's condition for adding: the button was pressed, the name
      is non-empty and both numbers are strictly positive. */
  predicate Accepts(pressed: bool, name: string, amount: real, pricePerUnit: real) {
    pressed && Valid(Investment(name, amount, pricePerUnit))
  }

  /** One run of the sidebar form: add the entered holding when the guard
      holds, otherwise leave the tracker (portfolio and file) as it was. */
  function Submit(t: InvestmentTracker, pressed: bool, name: string, amount: real, pricePerUnit: real): (r: InvestmentTracker)
    ensures r == t <==> !Accepts(pressed, name, amount, pricePerUnit)
    ensures Accepts(pressed, name, amount, pricePerUnit) ==> r == AddInvestment(t, name, amount, pricePerUnit)
  {
    if Accepts(pressed, name, amount, pricePerUnit) then AddInvestment(t, name, amount, pricePerUnit) else t
  }

  /** An empty name, a non-positive amount or a non-positive price is
      rejected: the portfolio keeps its length and its contents. */
  lemma SubmitRejectsInvalid(t: InvestmentTracker, pressed: bool, name: string, amount: real, pricePerUnit: real)
    requires |name| == 0 || amount <= 0.0 || pricePerUnit <= 0.0
    ensures Submit(t, pressed, name, amount, pricePerUnit) == t
    ensures |Submit(t, pressed, name, amount, pricePerUnit).portfolio| == |t.portfolio|
  {
  }

  /** Whatever the input, a submission never edits or removes a record that
      was already in the portfolio. */
  lemma SubmitIsAppendOnly(t: InvestmentTracker, pressed: bool, name: string, amount: real, pricePerUnit: real)
    ensures var r := Submit(t, pressed, name, amount, pricePerUnit);
      |t.portfolio| <= |r.portfolio| <= |t.portfolio| + 1 &&
      r.portfolio[..|t.portfolio|] == t.portfolio
  {
  }

  /** If every stored record passed the guard, every record still does after
      a submission, accepted or rejected. */
  lemma SubmitPreservesValidity(t: InvestmentTracker, pressed: bool, name: string, amount: real, pricePerUnit: real)
    requires AllValid(t.portfolio)
    ensures AllValid(Submit(t, pressed, name, amount, pricePerUnit).portfolio)
  {
  }

  /** An accepted submission raises the total by `amount * price_per_unit`;
      a rejected one leaves it as it was. */
  lemma SubmitTotalValue(t: InvestmentTracker, pressed: bool, name: string, amount: real, pricePerUnit: real)
    ensures var r := Submit(t, pressed, name, amount, pricePerUnit);
      TotalValue(r.portfolio) ==
        TotalValue(t.portfolio) + (if Accepts(pressed, name, amount, pricePerUnit) then amount * pricePerUnit else 0.0)
  {
    if Accepts(pressed, name, amount, pricePerUnit) {
      TotalValueAfterAppend(t.portfolio, name, amount, pricePerUnit);
    }
  }

  /** The next Streamlit run re-opens the tracker from the file; a tracker
      that is in sync comes back unchanged, so a submission survives it. */
  lemma ReopenAfterSubmit(t: InvestmentTracker, pressed: bool, name: string, amount: real, pricePerUnit: real)
    requires InSync(t)
    ensures var r := Submit(t, pressed, name, amount, pricePerUnit);
      Open(r.file) == Ok(r)
  {
  }
}
