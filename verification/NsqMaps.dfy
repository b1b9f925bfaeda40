/** The per-CPU maps and per-queue masks updated in place (daredevil/block/blk-blex.c:364-441, 505-543). */
module NsqMaps {
  import opened Usages

  /** The contexts in which a mapping is updated. */
  datatype Context = TaskInit | TaskUpdate

  class Maps {
    const maps: array<map<nat, nat>>
    const nrInUse: array<int>
    const masks: array<set<nat>>

    function Value(): Usage
      reads maps, nrInUse, masks
    {
      Usage(maps[..], nrInUse[..], masks[..])
    }

    constructor (cpus: nat, max: nat)
      ensures fresh(maps) && fresh(nrInUse) && fresh(masks) && Consistent(Value())
      ensures Shape(Value(), cpus, max) && Empty(Value())
    {
      maps := new map<nat, nat>[cpus](_ => map[]);
      nrInUse := new int[cpus](_ => 0);
      masks := new set<nat>[max](_ => {});
    }

    /** blk_blex_set_maps. */
    method SetMaps(cpu: nat, q: nat)
      requires Place(Value(), cpu, q)
      modifies maps, nrInUse, masks
      ensures Value() == Usages.SetMaps(old(Value()), cpu, q)
    {
      masks[q - 1] := masks[q - 1] + {cpu};
      if q !in maps[cpu] {
        nrInUse[cpu] := nrInUse[cpu] + 1;
        maps[cpu] := Store(maps[cpu], q, 1);
      } else {
        maps[cpu] := Store(maps[cpu], q, maps[cpu][q] + 1);
      }
    }

    /** blk_blex_clear_maps. */
    method ClearMaps(cpu: nat, q: nat)
      requires Place(Value(), cpu, q)
      modifies maps, nrInUse, masks
      ensures Value() == Usages.ClearMaps(old(Value()), cpu, q)
    {
      if q !in maps[cpu] {
        masks[q - 1] := masks[q - 1] - {cpu};
        return;
      }
      if maps[cpu][q] > 1 {
        maps[cpu] := Store(maps[cpu], q, maps[cpu][q] - 1);
      } else {
        masks[q - 1] := masks[q - 1] - {cpu};
        nrInUse[cpu] := nrInUse[cpu] - 1;
        maps[cpu] := Erase(maps[cpu], q);
      }
    }

    /** blk_blex_sched_update_mappings, run on CPU cpu. */
    method UpdateMappings(cpu: nat, sched: nat, was: nat, context: Context) returns (setOn: nat)
      requires Place(Value(), cpu, sched) && (context.TaskUpdate? ==> Place(Value(), cpu, was))
      modifies maps, nrInUse, masks
      ensures setOn == cpu
      ensures Value() ==
        if context.TaskInit? then Usages.SetMaps(old(Value()), cpu, sched)
        else Usages.ClearMaps(Usages.SetMaps(old(Value()), cpu, sched), cpu, was)
    {
      SetMaps(cpu, sched);
      if context.TaskUpdate? {
        ClearMaps(cpu, was);
      }
      setOn := cpu;
    }

    /** The mapping part of blk_blex_sched_task_update: queue q was chosen for a task recorded at home,
        task_cpu gave `seen`, and get_cpu gives `cpu`. */
    method TaskUpdate(home: Home, seen: nat, cpu: nat, q: nat) returns (last: nat)
      requires Place(Value(), home.cpu, home.q) && Place(Value(), cpu, q)
      modifies maps, nrInUse, masks
      ensures Value() == Reschedule(old(Value()), home, seen, cpu, q)
      ensures last == if q == home.q then home.cpu else cpu
    {
      last := home.cpu;
      if q != home.q {
        if last != seen {
          ClearMaps(last, home.q);
        }
        last := UpdateMappings(cpu, q, home.q, Context.TaskUpdate);
      }
    }
  }
}
