/** Names, labels, enumerations and small values shared by every component. */
module Types {

  datatype Option<+T> = None | Some(value: T) {
    function GetOr(default: T): T {
      if Some? then value else default
    }

    /** The receiver if it holds a value, otherwise `other`. */
    function Or(other: Option<T>): Option<T> {
      if Some? then this else other
    }
  }

  const TWO_63 := 0x8000_0000_0000_0000
  const TWO_64 := 0x1_0000_0000_0000_0000

  type U64 = n: nat | n < TWO_64

  /** The `as i64` cast of an unsigned 64-bit value. */
  function AsI64(n: U64): int {
    if n < TWO_63 then n else n - TWO_64
  }

  /** A namespaced object name. */
  datatype Key = Key(ns: string, name: string)

  type Labels = map<string, string>

  const FINALIZER_NAME := "chaos.io/cleanup"
  const MANAGED_BY_LABEL := "chaos.io/managed-by"
  const MANAGED_BY_VALUE := "chimp-chaos"
  const EXPERIMENT_LABEL := "chaos.io/experiment"

  const REQUEUE_RUNNING_SECS := 5

  /** Clock values are nanoseconds. */
  const NANOS := 1_000_000_000

  datatype Scenario = PodKiller | CpuStress | NetworkDelay | EdgeDelay | EdgeAbort {
    predicate IsEdge() {
      EdgeDelay? || EdgeAbort?
    }
  }

  datatype Phase = Pending | Running | Succeeded | Failed {
    predicate IsTerminal() {
      Succeeded? || Failed?
    }
  }

  datatype Edge = Edge(source: string, destination: string)

  lemma LabelsDiffer()
    ensures EXPERIMENT_LABEL != MANAGED_BY_LABEL
  {
    assert EXPERIMENT_LABEL[9] == 'e' && MANAGED_BY_LABEL[9] == 'm';
  }
}
