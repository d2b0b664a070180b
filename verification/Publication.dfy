/** Publication of render plans to the audio thread and reclamation of retired ones, as interleaved atomic steps.
    A plan is named by its generation; freeing it is final. */
module Publication {
  datatype Retired = Retired(plan: nat, safeAfter: nat)

  /** Where the control thread stands inside `prepareAndPublish` or `reclaimRetiredPlans`. */
  datatype ControlPoint = Idle | Switching | Published | Reclaiming(seen: nat)

  /** Where the audio thread stands inside `process`. */
  datatype AudioPoint = Outside | Loaded(plan: nat) | Rendering(plan: nat)

  datatype Step = BeginPublish | StoreLive | LoadAcknowledged | Sweep | LoadLive | CheckMagic | Acknowledge

  class PlanPublisher {
    var live: nat
    var livePlan: nat
    var retired: seq<Retired>
    var generationCounter: nat
    var acknowledged: nat
    var control: ControlPoint
    var audio: AudioPoint
    var useAfterFree: nat
    var freed: set<nat>

    constructor ()
      ensures Valid() && generationCounter == 0 && useAfterFree == 0
    {
      live, livePlan, retired, generationCounter, acknowledged := 0, 0, [], 0, 0;
      control, audio, useAfterFree, freed := Idle, Outside, 0, {};
    }

    /** The oldest plan that has not been freed. */
    ghost function Oldest(): int
      reads this
    {
      if generationCounter == 0 then 1 else generationCounter - |retired|
    }

    /** Plans are retired in the order of their generations, each until its successor is acknowledged. */
    ghost predicate RetiredInOrder()
      reads this
    {
      && 1 <= Oldest() && (generationCounter == 0 ==> retired == [])
      && (forall k :: 0 <= k < |retired| ==> retired[k] == Retired(Oldest() + k, Oldest() + k + 1))
    }

    /** What the audio thread holds was live when it was loaded, and is at least as new as what it has acknowledged. */
    ghost predicate HeldIsRecent()
      reads this
    {
      audio.Outside? || 1 <= acknowledged <= audio.plan <= live || (acknowledged == 0 && 1 <= audio.plan <= live)
    }

    ghost predicate Valid()
      reads this
    {
      && livePlan == generationCounter
      && live + (if control == Switching then 1 else 0) == livePlan
      && acknowledged <= live && HeldIsRecent() && RetiredInOrder()
      && (forall g :: g in freed <==> 1 <= g < Oldest())
      && (Oldest() == 1 || Oldest() <= acknowledged)
      && (control.Reclaiming? ==> control.seen <= acknowledged)
    }

    /** The plan the audio thread holds is never freed, and its memory check never fails. */
    lemma HeldIsNotFreed()
      requires Valid() && !audio.Outside?
      ensures audio.plan !in freed && acknowledged <= audio.plan
    {}

    method DoBeginPublish()
      requires Valid() && control == Idle
      modifies this
      ensures Valid() && generationCounter == old(generationCounter) + 1 && useAfterFree == old(useAfterFree)
      ensures control == Switching && freed == old(freed) && audio == old(audio)
    {
      generationCounter := generationCounter + 1;
      if livePlan != 0 {
        retired := retired + [Retired(livePlan, generationCounter)];
      }
      livePlan := generationCounter;
      control := Switching;
    }

    method DoStoreLive()
      requires Valid() && control == Switching
      modifies this`live, this`control
      ensures Valid() && live == generationCounter && control == Published
    {
      live := livePlan;
      control := Published;
    }

    method DoLoadAcknowledged()
      requires Valid() && (control == Published || control == Idle)
      modifies this`control
      ensures Valid() && control == Reclaiming(acknowledged)
    {
      control := Reclaiming(acknowledged);
    }

    /** Frees every retired plan whose successor was acknowledged; afterwards at most one plan is retired per
        generation published since the acknowledgement that was seen. */
    method DoSweep()
      requires Valid() && control.Reclaiming?
      modifies this`retired, this`freed, this`control
      ensures Valid() && control == Idle
      ensures |retired| <= generationCounter - old(control.seen)
      ensures forall r :: r in old(retired) ==>
        (r in retired <==> r.safeAfter > old(control.seen)) && (r.plan in freed <==> r.safeAfter <= old(control.seen))
      ensures |old(retired)| - |retired| == |freed| - |old(freed)|
    {
      retired := FreeUpTo(control.seen);
      control := Idle;
    }

    /** Frees the plans that were replaced up to a generation, and gives those that have to wait. */
    method FreeUpTo(seen: int) returns (kept: seq<Retired>)
      requires RetiredInOrder() && 0 <= seen <= generationCounter && forall g :: g in freed <==> 1 <= g < Oldest()
      modifies this`freed
      ensures var done := if seen <= Oldest() then 0 else seen - Oldest();
        && done <= |retired| && kept == retired[done..]
        && (forall g :: g in freed <==> 1 <= g < Oldest() + done) && |freed| == |old(freed)| + done
    {
      ghost var first := Oldest();
      kept := [];
      var k := 0;
      while k < |retired|
        invariant 0 <= k <= |retired|
        invariant kept == if seen <= first then retired[..k] else if k <= seen - first then [] else retired[seen - first..k]
        invariant forall g :: g in freed <==> 1 <= g < first + (k - |kept|)
        invariant |freed| == |old(freed)| + (k - |kept|)
      {
        var r := retired[k];
        if r.safeAfter <= seen {
          freed := freed + {r.plan};
        } else {
          kept := kept + [r];
        }
        k := k + 1;
      }
    }

    method DoLoadLive()
      requires Valid() && audio == Outside
      modifies this`audio
      ensures Valid() && audio == if live == 0 then Outside else Loaded(live)
    {
      if live != 0 {
        audio := Loaded(live);
      }
    }

    method DoCheckMagic()
      requires Valid() && audio.Loaded?
      modifies this`audio, this`useAfterFree
      ensures Valid() && audio == Rendering(old(audio.plan)) && useAfterFree == old(useAfterFree)
    {
      var dead := audio.plan in freed;
      useAfterFree := useAfterFree + if dead then 1 else 0;
      audio := if dead then Outside else Rendering(audio.plan);
    }

    method DoAcknowledge()
      requires Valid() && audio.Rendering?
      modifies this`audio, this`acknowledged
      ensures Valid() && acknowledged == old(audio.plan) && acknowledged >= old(acknowledged)
    {
      acknowledged := audio.plan;
      audio := Outside;
    }

    /** Any interleaving: a step that its thread cannot take now is skipped. */
    method Run(steps: seq<Step>)
      requires Valid()
      modifies this
      ensures Valid() && useAfterFree == old(useAfterFree)
      ensures !audio.Outside? ==> audio.plan !in freed
    {
      var k := 0;
      while k < |steps|
        invariant Valid() && useAfterFree == old(useAfterFree)
      {
        match steps[k] {
          case BeginPublish => if control == Idle { DoBeginPublish(); }
          case StoreLive => if control == Switching { DoStoreLive(); }
          case LoadAcknowledged => if control == Published || control == Idle { DoLoadAcknowledged(); }
          case Sweep => if control.Reclaiming? { DoSweep(); }
          case LoadLive => if audio == Outside { DoLoadLive(); }
          case CheckMagic => if audio.Loaded? { DoCheckMagic(); }
          case Acknowledge => if audio.Rendering? { DoAcknowledge(); }
        }
        k := k + 1;
      }
      if !audio.Outside? { HeldIsNotFreed(); }
    }
  }
}
