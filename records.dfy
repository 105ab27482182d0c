/** The record log shared by all modes (`APP.state.history`) and the one way
    records enter it, `APP.saveRecord` (app.js:550-569).  Persisting the log
    in browser storage is not part of this model: the log is the in-memory
    sequence the program keeps and reads. */
module Records {

  const Standard := "standard"
  const Survival := "survival"
  const F1 := "f1"
  const Tournament := "tournament"

  /** One finished participant session.  Times are integer centiseconds; the
      tournament's average time is a true quotient, hence `real`. */
  datatype Record = Record(
    player: string,
    school: string,
    bankId: string,
    bankTitle: string,
    mode: string,
    time: int,
    avgTime: real,
    rounds: int,
    score: int,
    errors: int,
    timestamp: int)

  /** The argument of `saveRecord`: "" stands for an absent string field and 0
      for an absent number, which `avgTime || 0` and `rounds || 0` turn into 0. */
  datatype Draft = Draft(
    player: string,
    school: string,
    bankId: string,
    bankTitle: string,
    mode: string,
    time: int,
    avgTime: real,
    rounds: int,
    score: int,
    errors: int)

  /** JavaScript's `s || fallback` on strings: the empty string is falsy. */
  function OrElse(s: string, fallback: string): (r: string)
    ensures r == s || r == fallback
    ensures r == "" ==> s == "" && fallback == ""
    ensures s != "" ==> r == s
  {
    if s != "" then s else fallback
  }

  /** The record `saveRecord` builds: fields the caller leaves empty are taken
      from the name and school inputs and from the session's current bank and mode. */
  function Complete(d: Draft, typedName: string, typedSchool: string,
                    currentBankId: string, currentMode: string, now: int): Record
  {
    Record(OrElse(d.player, typedName), OrElse(d.school, typedSchool),
           OrElse(d.bankId, currentBankId), OrElse(d.bankTitle, ""),
           OrElse(d.mode, currentMode), d.time, d.avgTime, d.rounds,
           d.score, d.errors, now)
  }

  /** The application state the engines write into (`APP.state`). */
  class Session {
    var history: seq<Record>
    var currentBankId: string
    var currentMode: string

    /** `APP.state` after start-up: the log read from storage, bank "b1",
        mode "standard". */
    constructor (saved: seq<Record>)
      ensures history == saved && currentBankId == "b1" && currentMode == Standard
    {
      history := saved;
      currentBankId := "b1";
      currentMode := Standard;
    }

    /** Append exactly one record; nothing already in the log changes. */
    method SaveRecord(d: Draft, typedName: string, typedSchool: string, now: int)
      modifies this
      ensures history == old(history) + [Complete(d, typedName, typedSchool, currentBankId, currentMode, now)]
      ensures currentBankId == old(currentBankId) && currentMode == old(currentMode)
    {
      var record := Complete(d, typedName, typedSchool, currentBankId, currentMode, now);
      history := history + [record];
    }
  }
}
