/** The descriptors the four stock apps hand to `aoapps_mngr_register` in their
    `*_register` functions, and what registering them does to a fresh manager. */
module StockApps {
  import opened Results
  import opened MngrH
  import opened MngrModel

  const RunLedApp := App("runled", "Running LEDs", "dim -", "dim +",
                         FLAGS_WITHTOPO | FLAGS_WITHREPAIR, false, None)
  const DitherApp := App("dither", "Dithering", "dim 0/1", "dither 0/1",
                         FLAGS_WITHTOPO | FLAGS_WITHREPAIR, false, None)
  const AniscriptApp := App("aniscript", "Animation script", "FPS -", "FPS +",
                            FLAGS_WITHTOPO | FLAGS_WITHREPAIR, false, None)

  /** The swflag app is the only stock app with a configuration command; `help`
      is the text of its help string. */
  function SwFlagApp(help: string): App {
    App("swflag", "Switch flag", "dim -", "dim +",
        FLAGS_WITHTOPO | FLAGS_WITHREPAIR, true, Some(help))
  }

  /** A fresh manager with the four stock apps registered after the voidapp:
      every registration is accepted, the apps land in slots 1..4 in the order
      registered, all four ask for the topology wrapper and repair, none for
      NEXTONERR, and only swflag offers a command. */
  function RegisterStock(now: int, help: string): (m: Mngr)
    ensures Valid(m)
    ensures |m.apps| == 5 && m.appix == 0 && !m.running && m.result == Ok
    ensures m.apps[0] == VoidApp && m.apps[1] == RunLedApp && m.apps[2] == DitherApp
    ensures m.apps[3] == AniscriptApp && m.apps[4] == SwFlagApp(help)
    ensures forall i :: 1 <= i < 5 ==>
              HasFlag(m.apps[i].flags, FLAGS_WITHTOPO) && HasFlag(m.apps[i].flags, FLAGS_WITHREPAIR)
              && !HasFlag(m.apps[i].flags, FLAGS_NEXTONERR)
    ensures forall i :: 0 <= i < 5 ==> (m.apps[i].hasCmd <==> i == 4)
  {
    var m0 := Init(now);
    var m1 := Register(m0, RunLedApp);
    var m2 := Register(m1, DitherApp);
    var m3 := Register(m2, AniscriptApp);
    Register(m3, SwFlagApp(help))
  }
}
