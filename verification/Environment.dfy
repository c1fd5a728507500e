/** driver/envir.c: the environment a family of tasks shares. */
module Environment {
  import opened Bits

  const MUX_EVSETS: nat := 32
  const DEFAULT_SAMPLE_TIME: nat := 10
  const NS_PER_MS: nat := 1_000_000

  datatype Options = Options(
    inherit: bool, exec: bool, rapl: bool, cpu: bool, fork: bool, sched: bool, stat: bool)

  datatype Envir = Envir(
    esids: seq<int>, nEsids: nat, sampleTime: nat, batchSize: nat, options: Options, count: int)

  /** What `smon_create_envir` makes of the user's environment. */
  function CreateEnvir(user: Envir): Envir {
    var e := user.(
      sampleTime := if user.sampleTime > 0 then user.sampleTime else DEFAULT_SAMPLE_TIME,
      count := 1);
    if e.options.stat then
      e.(nEsids := 1,
         options := e.options.(rapl := false, cpu := false, fork := false, sched := false))
    else e
  }

  /** `smon_create_envir`. */
  method NewEnvir(user: Envir) returns (e: Envir)
    ensures e == CreateEnvir(user)
  {
    e := Envir(user.esids, user.nEsids, DEFAULT_SAMPLE_TIME, user.batchSize, user.options, 1);
    if user.sampleTime > 0 {
      e := e.(sampleTime := user.sampleTime);
    }
    if e.options.stat {
      e := e.(nEsids := 1);
      e := e.(options := e.options.(rapl := false, cpu := false));
      e := e.(options := e.options.(fork := false, sched := false));
    }
  }

  /** The sample time asked for is the sample time got, unless it is 0, documented as "only
      count" but given the default like any missing one. */
  lemma SampleTimeKept(user: Envir)
    ensures CreateEnvir(user).sampleTime == user.sampleTime <==> user.sampleTime > 0
    ensures user.sampleTime == 0 ==> CreateEnvir(user).sampleTime == DEFAULT_SAMPLE_TIME
    ensures CreateEnvir(user).options.stat == user.options.stat
  {
  }

  /** What a family gets of the environment its root was registered with. Outside stat mode the
      event sets, the batch and all options are the user's. */
  lemma UserKept(user: Envir)
    requires !user.options.stat
    ensures var e := CreateEnvir(user);
      e.nEsids == user.nEsids && e.esids == user.esids && e.batchSize == user.batchSize && e.options == user.options
  {
  }

  /** In stat mode there is one event set, the user's first, and nothing is sampled but what a
      task that exits, goes live or is handed down leaves. */
  lemma StatKept(user: Envir)
    requires user.options.stat && |user.esids| > 0
    ensures var e := CreateEnvir(user); var o := e.options;
      && e.nEsids == 1 && |e.esids| > 0 && e.esids[0] == user.esids[0] && e.batchSize == user.batchSize
      && o.stat && o.inherit == user.options.inherit && o.exec == user.options.exec
      && !o.rapl && !o.cpu && !o.fork && !o.sched
  {
  }

  /** `smon_envir_next_evset`. */
  function NextEvset(e: Envir, id: nat): (n: nat)
    requires e.nEsids >= 1
    ensures n < e.nEsids
  {
    (id + 1) % e.nEsids
  }

  /** MS_TO_NS(sample_time), an unsigned 32-bit product. */
  function Period(e: Envir): (p: nat)
    ensures p < U32 && exists n: nat :: e.sampleTime * NS_PER_MS == n * U32 + p
  {
    var ns := e.sampleTime * NS_PER_MS;
    assert ns == (ns / U32) * U32 + ns % U32;
    ns % U32
  }

  /** The timer runs for the requested time exactly when it is at most 4294 ms: beyond that
      the product wraps. */
  lemma PeriodExact(e: Envir)
    requires e.sampleTime < U32
    ensures Period(e) == e.sampleTime * NS_PER_MS <==> e.sampleTime <= 4294
  {
    if e.sampleTime > 4294 {
      assert e.sampleTime * NS_PER_MS >= U32;
    }
  }

  /** The period vanishes exactly for multiples of 2^26 ms. */
  lemma PeriodZero(e: Envir)
    ensures Period(e) == 0 <==> e.sampleTime % 0x400_0000 == 0
  {
    WrapsToZero(e.sampleTime);
  }

  /** 10^6 = 2^6 * 15625, and 12738873 inverts 15625 modulo 2^26. */
  lemma WrapsToZero(t: nat)
    ensures (t * NS_PER_MS) % U32 == 0 <==> t % 0x400_0000 == 0
  {
    if t % 0x400_0000 == 0 {
      var k := t / 0x400_0000;
      ModIs(t * NS_PER_MS, U32, 15625 * k, 0);
    }
    if (t * NS_PER_MS) % U32 == 0 {
      var q := t * NS_PER_MS / U32;
      assert 15625 * t == 0x400_0000 * q;
      assert t == 0x400_0000 * (12738873 * q - 2966 * t);
      ModIs(t, 0x400_0000, 12738873 * q - 2966 * t, 0);
    }
  }
}
