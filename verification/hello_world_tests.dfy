/** The HelloWorld sandbox test suite, restated as verified methods over the model. */
module HelloWorldScenarios {
  import opened Common
  import opened Ledger
  import opened HelloWorldAccount

  /** `beforeEach`: `fromInit(0, 0)` followed by an empty-body message carrying 0.05 TON, which must deploy. */
  method DeployedHelloWorld(deployer: Address) returns (hw: HelloWorld, ok: bool)
    ensures fresh(hw)
    ensures ok && hw.deployed && hw.id == 0 && hw.counter == 0
  {
    hw := new HelloWorld.FromInit(0, 0);
    ok := hw.ReceiveEmpty(Context(deployer, DeployValue));
  }

  /** "should deploy". */
  method Deploys(deployer: Address) returns (ok: bool, id: nat, counter: nat)
    ensures ok && id == 0 && counter == 0
  {
    var hw;
    hw, ok := DeployedHelloWorld(deployer);
    id := hw.GetId();
    counter := hw.GetCounter();
  }

  /** The sum of a run of `Add` amounts. */
  function SumAdds(amounts: seq<Uint32>): nat
  {
    if amounts == [] then 0 else SumAdds(amounts[..|amounts| - 1]) + amounts[|amounts| - 1]
  }

  /**
   * "should increase counter": each round a fresh sender sends `Add(amount)`; every
   * send succeeds, the counter read after it is the counter read before plus the
   * amount, and at the end the counter is the sum of all amounts.
   */
  method IncreasesCounter(deployer: Address, increasers: seq<Address>, amounts: seq<Uint32>)
    returns (oks: seq<bool>, before: seq<nat>, after: seq<nat>, finalCounter: nat)
    requires |increasers| == |amounts|
    ensures |oks| == |before| == |after| == |amounts|
    ensures forall i :: 0 <= i < |amounts| ==> oks[i] && after[i] == before[i] + amounts[i]
    ensures finalCounter == SumAdds(amounts)
  {
    var hw, deployed := DeployedHelloWorld(deployer);
    oks, before, after := [], [], [];
    for i := 0 to |amounts|
      invariant |oks| == |before| == |after| == i
      invariant forall j :: 0 <= j < i ==> oks[j] && after[j] == before[j] + amounts[j]
      invariant hw.counter == SumAdds(amounts[..i])
    {
      var counterBefore := hw.GetCounter();
      var ok := hw.ReceiveAdd(Context(increasers[i], DeployValue), Add(amounts[i]));
      var counterAfter := hw.GetCounter();
      oks, before, after := oks + [ok], before + [counterBefore], after + [counterAfter];
      assert amounts[..i + 1][..i] == amounts[..i];
    }
    assert amounts[..|amounts|] == amounts;
    finalCounter := hw.GetCounter();
  }
}
