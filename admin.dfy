/** The audit-log and feature-flag panels of the administration page: how an
    action name is classified and the counters shown above the lists. */
module Admin {
  import opened Text

  /** An audit-log entry; only its action name is classified. */
  datatype AuditLog = AuditLog(id: string, action: string, targetType: string)

  datatype FeatureFlag = FeatureFlag(key: string, enabled: bool)

  /** The words that mark an action as an error. */
  const ErrorActions: seq<string> := ["ERROR", "FAILED", "FAILURE", "EXCEPTION", "UNAUTHORIZED", "FORBIDDEN"]

  /** `words.some(w => text.includes(w))`. */
  function ContainsAny(text: string, words: seq<string>): (r: bool)
    ensures r <==> exists k :: 0 <= k < |words| && Contains(text, words[k])
    decreases |words|
  {
    if words == [] then false
    else Contains(text, words[0]) || ContainsAny(text, words[1..])
  }

  /** `isErrorAction`. */
  function IsErrorAction(action: string): (r: bool)
    ensures r <==> exists k :: 0 <= k < |ErrorActions| && Contains(ToUpper(action), ErrorActions[k])
  {
    ContainsAny(ToUpper(action), ErrorActions)
  }

  datatype Level = ERROR | WARNING | SUCCESS | INFO

  /** `getActionLevel`: the first group of words the upper-cased action contains decides. */
  function ActionLevel(action: string): (level: Level)
    ensures var up := ToUpper(action);
      && (level == ERROR <==> Contains(up, "ERROR") || Contains(up, "FAILED") || Contains(up, "FAILURE"))
      && (level == WARNING <==> level != ERROR && (Contains(up, "WARNING") || Contains(up, "WARN")))
      && (level == SUCCESS <==> (level != ERROR && level != WARNING
            && (Contains(up, "SUCCESS") || Contains(up, "CREATED") || Contains(up, "UPDATED"))))
  {
    var up := ToUpper(action);
    if Contains(up, "ERROR") || Contains(up, "FAILED") || Contains(up, "FAILURE") then ERROR
    else if Contains(up, "WARNING") || Contains(up, "WARN") then WARNING
    else if Contains(up, "SUCCESS") || Contains(up, "CREATED") || Contains(up, "UPDATED") then SUCCESS
    else INFO
  }

  /** An action classified at the error level is an error action. */
  lemma ErrorLevelIsErrorAction(action: string)
    ensures ActionLevel(action) == ERROR ==> IsErrorAction(action)
  {
    var up := ToUpper(action);
    if ActionLevel(action) == ERROR {
      if Contains(up, "ERROR") {
        assert ErrorActions[0] == "ERROR";
      } else if Contains(up, "FAILED") {
        assert ErrorActions[1] == "FAILED";
      } else {
        assert ErrorActions[2] == "FAILURE";
      }
    }
  }

  /** The `WARNING` test adds nothing to the `WARN` test: an action is at the
      warning level exactly when it is not an error and contains `WARN`. */
  lemma WarningMeansWarn(action: string)
    ensures ActionLevel(action) == WARNING <==> ActionLevel(action) != ERROR && Contains(ToUpper(action), "WARN")
  {
    var up := ToUpper(action);
    if Contains(up, "WARNING") {
      ContainsPrefix(up, "WARNING", "WARN");
    }
  }

  /** The number of logs whose action is at `level`. */
  function LevelCount(logs: seq<AuditLog>, level: Level): (n: nat)
    ensures n <= |logs|
    decreases |logs|
  {
    if logs == [] then 0
    else (if ActionLevel(logs[0].action) == level then 1 else 0) + LevelCount(logs[1..], level)
  }

  /** The number of logs that are error actions. */
  function ErrorActionCount(logs: seq<AuditLog>): (n: nat)
    ensures n <= |logs|
    decreases |logs|
  {
    if logs == [] then 0
    else (if IsErrorAction(logs[0].action) then 1 else 0) + ErrorActionCount(logs[1..])
  }

  /** The "Erros" counter: logs that are error actions or at the error level. */
  function ErrorsShown(logs: seq<AuditLog>): (n: nat)
    ensures n <= |logs|
    decreases |logs|
  {
    if logs == [] then 0
    else
      (if IsErrorAction(logs[0].action) || ActionLevel(logs[0].action) == ERROR then 1 else 0)
      + ErrorsShown(logs[1..])
  }

  /** The second test of the "Erros" filter never adds a log: the counter is
      the number of error actions. */
  lemma {:induction false} ErrorsShownAreErrorActions(logs: seq<AuditLog>)
    ensures ErrorsShown(logs) == ErrorActionCount(logs)
    decreases |logs|
  {
    if logs != [] {
      ErrorLevelIsErrorAction(logs[0].action);
      ErrorsShownAreErrorActions(logs[1..]);
    }
  }

  /** Every log has exactly one level, so the four level counts add up to the
      number of loaded logs; in particular the warnings and the successes
      shown never exceed it. */
  lemma {:induction false} LevelsPartitionLogs(logs: seq<AuditLog>)
    ensures LevelCount(logs, ERROR) + LevelCount(logs, WARNING) + LevelCount(logs, SUCCESS)
      + LevelCount(logs, INFO) == |logs|
    ensures LevelCount(logs, WARNING) + LevelCount(logs, SUCCESS) <= |logs|
    decreases |logs|
  {
    if logs != [] {
      LevelsPartitionLogs(logs[1..]);
    }
  }

  /** The "Features Ativas" counter. */
  function EnabledCount(flags: seq<FeatureFlag>): (n: nat)
    ensures n <= |flags|
    decreases |flags|
  {
    if flags == [] then 0 else (if flags[0].enabled then 1 else 0) + EnabledCount(flags[1..])
  }

  /** The number of flags that are off. */
  function DisabledCount(flags: seq<FeatureFlag>): (n: nat)
    ensures n <= |flags|
    ensures n == 0 <==> forall k :: 0 <= k < |flags| ==> flags[k].enabled
    decreases |flags|
  {
    if flags == [] then 0 else (if flags[0].enabled then 0 else 1) + DisabledCount(flags[1..])
  }

  /** The "Features Inativas" counter, `totalFlags - enabledFlags`, is never
      negative and is the number of flags that are off. */
  lemma {:induction false} InactiveFlagsCount(flags: seq<FeatureFlag>)
    ensures |flags| - EnabledCount(flags) == DisabledCount(flags)
    decreases |flags|
  {
    if flags != [] {
      InactiveFlagsCount(flags[1..]);
    }
  }
}
