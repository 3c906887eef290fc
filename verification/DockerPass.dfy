/** What one Reconcile pass is meant to do to one device, and why two passes suffice. */
module DockerPass {
  import opened AdbDevices
  import opened DockerState

  datatype AppiumState = NoAppium | Up | Down

  /** A stopped test container is `Fresh` until its identifier is in `reported`. */
  datatype TestState = NoTest | Running | Fresh | Stale

  /** One device as a pass sees it. */
  datatype View = View(appium: AppiumState, test: TestState, rebooting: bool, vidOk: bool)

  function ViewOf(dc: DC, reported: set<string>, rebooting: bool, vidOk: bool): View
  {
    View(if dc.appiumID == "" then NoAppium else if dc.appiumStatus == "running" then Up else Down,
         if dc.testID == "" then NoTest else if dc.testStatus == "running" then Running
         else if dc.testID in reported then Stale else Fresh,
         rebooting, vidOk)
  }

  /** The pass skips a device that lacks Appium and is in the wrong USB mode. */
  predicate Skipped(v: View)
  {
    v.appium != Up && !v.vidOk
  }

  /** The pass calls `createAppium` for a ready device. */
  predicate Tries(v: View)
  {
    v.appium != Up && v.vidOk
  }

  /** The test half of a pass, for a device whose Appium is up. */
  function TestPass(tests: bool, v: View): View
  {
    if !tests then v else
      match v.test
      case Running => v
      case Fresh => v.(test := NoTest, rebooting := true)
      case Stale => v.(test := NoTest)
      case NoTest => if v.rebooting then v else v.(test := Running)
  }

  /** One pass over one device when no call fails. */
  function Pass(ready: bool, tests: bool, v: View): View
  {
    if !ready then (if v.vidOk then v.(appium := NoAppium, test := NoTest) else v)
    else if Skipped(v) then v
    else TestPass(tests, v.(appium := Up))
  }

  /** Does the pass create, remove or report anything for the device? */
  predicate Acts(ready: bool, tests: bool, v: View)
  {
    if !ready then v.vidOk && (v.appium != NoAppium || v.test != NoTest)
    else !Skipped(v) && (v.appium != Up || (tests && v.test != Running && !(v.test == NoTest && v.rebooting)))
  }

  /** A new device: no container at all, and the pass creates one. Its USB data is then
      read afresh, so the mode check may come out differently afterwards. */
  predicate Connects(ready: bool, v: View)
  {
    ready && v.vidOk && v.appium == NoAppium && v.test == NoTest
  }

  predicate Next(ready: bool, tests: bool, v: View, v': View)
  {
    && v' == Pass(ready, tests, v).(vidOk := v'.vidOk)
    && (v'.vidOk != v.vidOk ==> Connects(ready, v))
  }

  /** After two passes a device is quiet; a ready device in the right USB mode has its
      Appium running, and a disconnected one in the right mode has no container. */
  lemma TwoPassesSettle(ready: bool, tests: bool, v: View, v1: View, v2: View)
    requires Next(ready, tests, v, v1) && Next(ready, tests, v1, v2)
    ensures !Acts(ready, tests, v2)
    ensures ready && v2.vidOk ==> v2.appium == Up
    ensures !ready && v2.vidOk ==> v2.appium == NoAppium && v2.test == NoTest
  {}

  /** One pass is not enough: a stale test container is removed in the first pass and
      replaced only in the second. */
  lemma OnePassIsNotEnough()
    ensures exists v, v1 :: Next(true, true, v, v1) && Acts(true, true, v1)
  {
    var v := View(Up, Stale, false, true);
    assert Next(true, true, v, v.(test := NoTest)) && Acts(true, true, v.(test := NoTest));
  }
}
