/** What the executor of an external runtime reads from its answers, and the clock
    that bounds its polling. */
module Runtime {
  import opened Wrappers
  import opened Ledger

  /** A step entry of an external answer; texts already carry the source's defaults.
      `hashable` is false when its name cannot be looked up, `numbers` is None when its
      latency and token counts are no whole numbers. */
  datatype ExternalStep = ExternalStep(nodeId: Option<string>, hashable: bool, status: Option<string>, output: string,
                                       numbers: Option<Usage>, error: string)

  /** None stands for an entry of `steps` that is not an object; `iterable` is false when
      the value of `steps` cannot be iterated over. */
  datatype ExternalRun = ExternalRun(status: Option<string>, summary: string, iterable: bool, steps: seq<Option<ExternalStep>>)

  function LowerChar(c: char): char {
    if 'A' <= c <= 'Z' then (c as int + 32) as char else c
  }

  /** Lower-casing of ASCII letters; no other character folds into the words below. */
  function Lower(text: string): string {
    seq(|text|, i requires 0 <= i < |text| => LowerChar(text[i]))
  }

  /** `_normalize_runtime_status`. */
  function NormalizeStatus(value: Option<string>): string {
    var name := if value.None? || value.value == "" then "queued" else Lower(value.value);
    if name in ["done", "success", "successful", "complete", "completed"] then "succeeded"
    else if name == "error" then "failed"
    else name
  }

  // ---------- the words an answer may use ----------

  /** The word, in small or capital letters. */
  predicate Spells(text: string, word: string) {
    |text| == |word| && forall i :: 0 <= i < |word| ==>
      text[i] == word[i] || ('a' <= word[i] <= 'z' && text[i] as int + 32 == word[i] as int)
  }

  /** One of the words. */
  predicate Says(status: Option<string>, words: seq<string>) {
    status.Some? && exists i :: 0 <= i < |words| && Spells(status.value, words[i])
  }

  predicate SaysSucceeded(status: Option<string>) {
    Says(status, ["succeeded", "done", "success", "successful", "complete", "completed"])
  }

  predicate SaysFailed(status: Option<string>) {
    Says(status, ["failed", "error"])
  }

  predicate SaysCancelled(status: Option<string>) {
    Says(status, ["cancelled"])
  }

  predicate SaysRunning(status: Option<string>) {
    Says(status, ["running"])
  }

  lemma SpellsIffLower(text: string, word: string)
    requires forall i :: 0 <= i < |word| ==> 'a' <= word[i] <= 'z'
    ensures Spells(text, word) <==> Lower(text) == word
  {
    if Lower(text) == word {
      forall i | 0 <= i < |word| ensures text[i] == word[i] || text[i] as int + 32 == word[i] as int {
        assert Lower(text)[i] == LowerChar(text[i]);
      }
    }
    if Spells(text, word) {
      forall i | 0 <= i < |word| ensures Lower(text)[i] == word[i] {
        assert Lower(text)[i] == LowerChar(text[i]);
      }
    }
  }

  predicate SmallLetters(words: seq<string>) {
    forall i, j :: 0 <= i < |words| && 0 <= j < |words[i]| ==> 'a' <= words[i][j] <= 'z'
  }

  lemma SaysIffLower(status: Option<string>, words: seq<string>)
    requires SmallLetters(words)
    ensures Says(status, words) <==> status.Some? && Lower(status.value) in words
  {
    if status.Some? {
      forall i | 0 <= i < |words| ensures Spells(status.value, words[i]) <==> Lower(status.value) == words[i] {
        SpellsIffLower(status.value, words[i]);
      }
    }
    hide Spells;
    hide Lower;
  }

  lemma NamedStatus(status: Option<string>, name: string)
    requires name in ["succeeded", "failed", "cancelled", "running"]
    ensures NormalizeStatus(status) == name <==>
      status.Some? && (Lower(status.value) == name
        || (name == "succeeded" && Lower(status.value) in ["done", "success", "successful", "complete", "completed"])
        || (name == "failed" && Lower(status.value) == "error"))
  {
    if status == Some("") { assert Lower("") == ""; }
    hide Lower;
  }

  lemma SuccessWords(status: Option<string>)
    ensures NormalizeStatus(status) == "succeeded" <==> SaysSucceeded(status)
  {
    NamedStatus(status, "succeeded");
    SaysIffLower(status, ["succeeded", "done", "success", "successful", "complete", "completed"]);
    hide NormalizeStatus;
    hide Says;
    hide Lower;
  }

  lemma FailureWords(status: Option<string>)
    ensures NormalizeStatus(status) == "failed" <==> SaysFailed(status)
  {
    NamedStatus(status, "failed");
    SaysIffLower(status, ["failed", "error"]);
    hide NormalizeStatus;
    hide Says;
    hide Lower;
  }

  lemma PlainWords(status: Option<string>)
    ensures NormalizeStatus(status) == "cancelled" <==> SaysCancelled(status)
    ensures NormalizeStatus(status) == "running" <==> SaysRunning(status)
  {
    NamedStatus(status, "cancelled");
    NamedStatus(status, "running");
    SaysIffLower(status, ["cancelled"]);
    SaysIffLower(status, ["running"]);
    hide NormalizeStatus;
    hide Says;
    hide Lower;
  }

  /** What the normalised status says is what the word says. */
  lemma WordsNormalized(status: Option<string>)
    ensures NormalizeStatus(status) == "succeeded" <==> SaysSucceeded(status)
    ensures NormalizeStatus(status) == "failed" <==> SaysFailed(status)
    ensures NormalizeStatus(status) == "cancelled" <==> SaysCancelled(status)
    ensures NormalizeStatus(status) == "running" <==> SaysRunning(status)
  {
    SuccessWords(status);
    FailureWords(status);
    PlainWords(status);
    hide *;
  }

  /** The position of a node in a snapshot, as the `positions` dictionary gives it. */
  function FindNode(steps: seq<Step>, nodeId: string): (position: Option<nat>)
    ensures position.Some? ==> position.value < |steps| && steps[position.value].spec.nodeId == nodeId
    ensures position.None? ==> forall i :: 0 <= i < |steps| ==> steps[i].spec.nodeId != nodeId
  {
    if steps == [] then None
    else if steps[|steps| - 1].spec.nodeId == nodeId then Some(|steps| - 1)
    else FindNode(steps[..|steps| - 1], nodeId)
  }

  // ---------- the polling clock ----------

  datatype Timer = Timer(now: real, deadline: real, interval: real)

  function NatFloor(x: real): nat {
    if x < 0.0 then 0 else x.Floor
  }

  /** How many more polls the deadline leaves room for. */
  function PollBudget(timer: Timer): nat
    requires timer.interval > 0.0
  {
    if timer.now >= timer.deadline then 0
    else 1 + NatFloor((timer.deadline - timer.now) / timer.interval)
  }

  /** `_runtime_float` on a parsed setting; None is an unparsable one. */
  function RuntimeFloat(setting: Option<real>, default: real): (value: real)
    ensures default > 0.0 ==> value > 0.0
    ensures setting.Some? ==> value >= 0.01 && value >= setting.value && value in [0.01, setting.value]
    ensures setting.None? ==> value == default
  {
    match setting
    case None => default
    case Some(x) => if x > 0.01 then x else 0.01
  }

  /** The clock reading, deadline and interval polling starts with. */
  function StartTimer(now: real, timeoutSetting: Option<real>, pollSetting: Option<real>): (timer: Timer)
    ensures timer.interval > 0.0 && timer.deadline > now
    ensures timer.deadline - now == RuntimeFloat(timeoutSetting, 3600.0) && timer.interval == RuntimeFloat(pollSetting, 0.5)
  {
    Timer(now, now + RuntimeFloat(timeoutSetting, 3600.0), RuntimeFloat(pollSetting, 0.5))
  }

  lemma NegativeProduct(x: real, y: real)
    requires x < 0.0 && y > 0.0
    ensures x * y < 0.0
  {
  }

  lemma DivideStep(before: real, after: real, interval: real)
    requires interval > 0.0 && after >= 0.0 && after <= before - interval
    ensures after / interval >= 0.0 && NatFloor(after / interval) + 1 <= NatFloor(before / interval)
  {
    var q, r := after / interval, before / interval;
    assert q * interval == after && r * interval == before;
    assert (r - q - 1.0) * interval >= 0.0;
    if r < q + 1.0 {
      NegativeProduct(r - q - 1.0, interval);
    }
    if q < 0.0 { NegativeProduct(q, interval); }
  }

  /** With finite settings, one sleep uses up at least one poll. */
  lemma SleepSpendsBudget(timer: Timer, checkedAt: real, wokeAt: real)
    requires timer.interval > 0.0
    requires timer.now <= checkedAt < timer.deadline && checkedAt + timer.interval <= wokeAt
    ensures PollBudget(timer.(now := wokeAt)) < PollBudget(timer)
  {
    if wokeAt < timer.deadline {
      var before, after := timer.deadline - timer.now, timer.deadline - wokeAt;
      DivideStep(before, after, timer.interval);
    }
  }
}
