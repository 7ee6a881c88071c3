/** The clock-in/out button of pages/Attendance.tsx as a pure step function:
    each press records a log entry at the head of the list and toggles the
    status. The timestamp (`Date.now()`) and the formatted time and date come
    in as a `Stamp` instead of being read from the clock. */
module Attendance {

  datatype Status = ClockedOut | ClockedIn

  datatype LogType = In | Out

  datatype TimeLog = TimeLog(id: int, kind: LogType, time: string, date: string)

  /** What the page reads from the clock when the button is pressed. */
  datatype Stamp = Stamp(id: int, time: string, date: string)

  datatype ClockState = ClockState(status: Status, logs: seq<TimeLog>)

  /** The page's state when it is first shown: clocked out, three sample logs. */
  const InitialState: ClockState := ClockState(ClockedOut, [
    TimeLog(1, In, "08:55 AM", "2024-10-14"),
    TimeLog(2, Out, "06:15 PM", "2024-10-13"),
    TimeLog(3, In, "09:00 AM", "2024-10-13")
  ])

  function Toggle(status: Status): (s: Status)
    ensures s != status
  {
    if status == ClockedOut then ClockedIn else ClockedOut
  }

  /** handleClockAction: clock in when out, clock out when in. */
  function ClockAction(state: ClockState, now: Stamp): (next: ClockState)
    ensures |next.logs| == |state.logs| + 1
    ensures next.logs[1..] == state.logs
    ensures next.logs[0].id == now.id && next.logs[0].time == now.time && next.logs[0].date == now.date
    ensures state.status == ClockedOut ==> next.logs[0].kind == In && next.status == ClockedIn
    ensures state.status == ClockedIn ==> next.logs[0].kind == Out && next.status == ClockedOut
  {
    var kind := if state.status == ClockedOut then In else Out;
    var entry := TimeLog(now.id, kind, now.time, now.date);
    ClockState(Toggle(state.status), [entry] + state.logs)
  }

  /** Two presses in a row restore the status. */
  lemma TwoActionsRestoreStatus(state: ClockState, first: Stamp, second: Stamp)
    ensures ClockAction(ClockAction(state, first), second).status == state.status
  {
  }

  /** Presses `stamps[0]`, `stamps[1]`, ... in that order. */
  function Run(state: ClockState, stamps: seq<Stamp>): ClockState
    decreases |stamps|
  {
    if |stamps| == 0 then state
    else ClockAction(Run(state, stamps[..|stamps| - 1]), stamps[|stamps| - 1])
  }

  /** The kind of the `k`-th press (counting from 0) from status `start`. */
  function KindOfPress(start: Status, k: nat): LogType {
    if (k % 2 == 0) == (start == ClockedOut) then In else Out
  }

  /** After n presses the n newest logs sit, newest first, in front of the old
      ones, which are unchanged; the kinds alternate from the starting status,
      and the status has toggled n times. */
  lemma {:induction false} RunShape(state: ClockState, stamps: seq<Stamp>)
    ensures var final := Run(state, stamps);
      var n := |stamps|;
      && |final.logs| == |state.logs| + n
      && final.logs[n..] == state.logs
      && (forall i :: 0 <= i < n ==>
            final.logs[i] == TimeLog(stamps[n - 1 - i].id, KindOfPress(state.status, n - 1 - i),
                                     stamps[n - 1 - i].time, stamps[n - 1 - i].date))
      && final.status == (if n % 2 == 0 then state.status else Toggle(state.status))
    decreases |stamps|
  {
    var n := |stamps|;
    if n > 0 {
      var prefix := stamps[..n - 1];
      RunShape(state, prefix);
      var before := Run(state, prefix);
      var final := Run(state, stamps);
      assert final == ClockAction(before, stamps[n - 1]);
      assert final.logs[n..] == before.logs[n - 1..];
      assert final.logs[0].kind == KindOfPress(state.status, n - 1);
      forall i | 1 <= i < n
        ensures final.logs[i] == TimeLog(stamps[n - 1 - i].id, KindOfPress(state.status, n - 1 - i),
                                         stamps[n - 1 - i].time, stamps[n - 1 - i].date)
      {
        assert final.logs[i] == before.logs[i - 1];
        assert prefix[n - 1 - i] == stamps[n - 1 - i];
      }
    }
  }

  /** From the page's initial state, the status is 'Clocked In' exactly when
      the button has been pressed an odd number of times, and the new logs
      read In, Out, In, ... from the oldest press onward. */
  lemma FromInitialState(stamps: seq<Stamp>)
    ensures var final := Run(InitialState, stamps);
      && (final.status == ClockedIn <==> |stamps| % 2 == 1)
      && |final.logs| == |stamps| + |InitialState.logs|
      && (forall k :: 0 <= k < |stamps| ==>
            final.logs[|stamps| - 1 - k].kind == (if k % 2 == 0 then In else Out))
      && final.logs[|stamps|..] == InitialState.logs
  {
    RunShape(InitialState, stamps);
    var n := |stamps|;
    var final := Run(InitialState, stamps);
    forall k | 0 <= k < n
      ensures final.logs[n - 1 - k].kind == (if k % 2 == 0 then In else Out)
    {
      assert n - 1 - (n - 1 - k) == k;
    }
  }
}
