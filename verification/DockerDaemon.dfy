/**
 The Docker state that one streaming-demo run can see, and the Docker commands its cleanup issues
 (scripts/experiments/module4c_streaming_demo.py).
 */
module DockerDaemon {
  import opened Wrappers
  import opened Ownership

  datatype Mount = Mount(isVolume: bool, name: string, destination: string)

  /** `HostConfig.Mounts`: a mount that the run command asked for. */
  datatype HostMount = HostMount(isVolume: bool, destination: string)

  datatype Container = Container(
    name: string, labels: Labels, declaredVolumes: set<string>, hostMounts: seq<HostMount>,
    binds: seq<string>, volumesFrom: bool, mounts: seq<Mount>)

  datatype Network = Network(name: string, labels: Labels)

  /** What a container mounts, by volume name. */
  function VolumesOf(c: Container): set<string> {
    set m | m in c.mounts && m.isVolume :: m.name
  }

  function StripSlashes(name: string): string {
    if name != "" && name[0] == '/' then StripSlashes(name[1..]) else name
  }

  /** `docker ps -q` prints the first twelve characters. */
  function Abbreviated(id: string): string {
    if |id| <= 12 then id else id[..12]
  }

  function UsersOf(containers: map<string, Container>, volume: string): set<string> {
    set id | id in containers && volume in VolumesOf(containers[id])
  }

  function AbbreviatedUsers(containers: map<string, Container>, volume: string): set<string> {
    set id | id in UsersOf(containers, volume) :: Abbreviated(id)
  }

  const TASK_LABEL := "codex.task"
  const RUN_LABEL := "codex.run"
  const TASK_VALUE := "c8b"

  predicate RunLabelled(labels: Labels, runId: string) {
    && TASK_LABEL in labels && labels[TASK_LABEL] == TASK_VALUE
    && RUN_LABEL in labels && labels[RUN_LABEL] == runId
  }

  /** A failed inspection, an absent resource, or a found one; its reported ID may be empty. */
  datatype Inspection<T> = InspectionError(detail: string) | Missing | Found(id: string, resource: T)

  /** A command that could not be run at all raises; one that ran returns a code. */
  datatype CommandResult = CommandRaised | CommandFailed | CommandDone

  datatype Listing = ListingRaised | ListingFailed | Ids(ids: set<string>)

  /** A `docker rm -f` command, with or without `-v`. */
  datatype Removal = Removal(id: string, withVolumes: bool)

  /** A reply that is no failure: an inspection that was answered, with an ID when the resource was found. */
  predicate Answered<T>(r: Inspection<T>) {
    r.Missing? || (r.Found? && r.id != "")
  }

  class Docker {
    /** The container and network removals issued so far. */
    ghost var removals: seq<Removal>
    ghost var networkRemovals: seq<string>
    /** How many commands have failed, raised or left out an ID so far. */
    ghost var failures: nat
    var containers: map<string, Container>
    var networks: map<string, Network>
    var volumes: set<string>

    constructor (containers: map<string, Container>, networks: map<string, Network>, volumes: set<string>)
      ensures this.containers == containers && this.networks == networks && this.volumes == volumes
      ensures removals == [] && networkRemovals == [] && failures == 0
    {
      this.containers, this.networks, this.volumes, this.removals, this.networkRemovals, this.failures :=
        containers, networks, volumes, [], [], 0;
    }

    method InspectContainer(name: string) returns (r: Inspection<Container>)
      modifies this`failures
      ensures failures == old(failures) + if Answered(r) then 0 else 1
      ensures r.Missing? ==> forall id :: id in containers ==> StripSlashes(containers[id].name) != name
      ensures r.Found? ==> r.id == "" || (r.id in containers && containers[r.id] == r.resource && StripSlashes(r.resource.name) == name)
    {
      var fails: bool, omitsId: bool := *, *;
      var named := set id | id in containers && StripSlashes(containers[id].name) == name;
      if fails {
        r := InspectionError("container inspect failed");
      } else if named == {} {
        assert forall id :: id in containers && StripSlashes(containers[id].name) == name ==> id in named;
        r := Missing;
      } else {
        var id :| id in named;
        r := Found(if omitsId then "" else id, containers[id]);
      }
      failures := failures + if Answered(r) then 0 else 1;
    }

    method InspectNetwork(name: string) returns (r: Inspection<Network>)
      modifies this`failures
      ensures failures == old(failures) + if Answered(r) then 0 else 1
      ensures r.Missing? ==> forall id :: id in networks ==> networks[id].name != name
      ensures r.Found? ==> r.resource.name == name && (r.id == "" || (r.id in networks && networks[r.id] == r.resource))
    {
      var fails: bool, omitsId: bool := *, *;
      var named := set id | id in networks && networks[id].name == name;
      if fails {
        r := InspectionError("network inspect failed");
      } else if named == {} {
        assert forall id :: id in networks && networks[id].name == name ==> id in named;
        r := Missing;
      } else {
        var id :| id in named;
        r := Found(if omitsId then "" else id, networks[id]);
      }
      failures := failures + if Answered(r) then 0 else 1;
    }

    method InspectVolume(name: string) returns (r: Inspection<string>)
      modifies this`failures
      ensures failures == old(failures) + if r.InspectionError? then 1 else 0
      ensures r.Missing? ==> name !in volumes
      ensures r.Found? ==> name in volumes
    {
      var fails: bool := *;
      if fails {
        r := InspectionError("volume inspect failed");
      } else {
        r := if name in volumes then Found(name, name) else Missing;
      }
      failures := failures + if fails then 1 else 0;
    }

    /** `docker ps -aq --filter volume=name`: every container that mounts it, abbreviated. */
    method ListVolumeUsers(volume: string) returns (r: Listing)
      modifies this`failures
      ensures failures == old(failures) + if r.Ids? then 0 else 1
      ensures r.Ids? ==> r.ids == AbbreviatedUsers(containers, volume)
    {
      var raises: bool, fails: bool := *, *;
      r := if raises then ListingRaised else if fails then ListingFailed
           else Ids(AbbreviatedUsers(containers, volume));
      failures := failures + if r.Ids? then 0 else 1;
    }

    method ListRunContainers(runId: string) returns (r: Listing)
      modifies this`failures
      ensures failures == old(failures) + if r.Ids? then 0 else 1
      ensures r.Ids? ==> (r.ids == {} <==> forall id :: id in containers ==> !RunLabelled(containers[id].labels, runId))
    {
      var fails: bool := *;
      failures := failures + if fails then 1 else 0;
      var labelled := set id | id in containers && RunLabelled(containers[id].labels, runId) :: Abbreviated(id);
      assert forall id :: id in containers && RunLabelled(containers[id].labels, runId) ==> Abbreviated(id) in labelled;
      assert (forall id :: id in containers ==> !RunLabelled(containers[id].labels, runId)) ==> labelled == {};
      r := if fails then ListingFailed else Ids(labelled);
    }

    method ListRunNetworks(runId: string) returns (r: Listing)
      modifies this`failures
      ensures failures == old(failures) + if r.Ids? then 0 else 1
      ensures r.Ids? ==> (r.ids == {} <==> forall id :: id in networks ==> !RunLabelled(networks[id].labels, runId))
    {
      var fails: bool := *;
      failures := failures + if fails then 1 else 0;
      var labelled := set id | id in networks && RunLabelled(networks[id].labels, runId) :: Abbreviated(id);
      assert forall id :: id in networks && RunLabelled(networks[id].labels, runId) ==> Abbreviated(id) in labelled;
      assert (forall id :: id in networks ==> !RunLabelled(networks[id].labels, runId)) ==> labelled == {};
      r := if fails then ListingFailed else Ids(labelled);
    }

    /** Logs are a convenience: only a command that cannot be run at all is a failure. */
    method Logs(id: string) returns (r: CommandResult)
      modifies this`failures
      ensures failures == old(failures) + if r.CommandRaised? then 1 else 0
    {
      var raises: bool, fails: bool := *, *;
      r := if raises then CommandRaised else if fails then CommandFailed else CommandDone;
      failures := failures + if raises then 1 else 0;
    }

    /**
     `docker rm -f [-v] id`.  Whatever it returns, it may have removed that one container; with `-v`
     it may have dropped any of the volumes mounted there.
     */
    method Remove(id: string, withVolumes: bool) returns (r: CommandResult)
      modifies this`removals, this`failures, this`containers, this`volumes
      ensures removals == old(removals) + [Removal(id, withVolumes)]
      ensures failures == old(failures) + if r.CommandDone? then 0 else 1
      ensures containers == old(containers) || containers == old(containers) - {id}
      ensures volumes <= old(volumes)
      ensures r.CommandDone? ==> containers == old(containers) - {id}
      ensures forall v :: v in old(volumes) && v !in volumes
                ==> withVolumes && id in old(containers) && v in VolumesOf(old(containers)[id])
    {
      removals := removals + [Removal(id, withVolumes)];
      var raises: bool, fails: bool, removed: bool, dropped: set<string> := *, *, *, *;
      if id in containers && withVolumes {
        volumes := volumes - (dropped * VolumesOf(containers[id]));
      }
      if removed || !(raises || fails) {
        containers := containers - {id};
      }
      r := if raises then CommandRaised else if fails then CommandFailed else CommandDone;
      failures := failures + if r.CommandDone? then 0 else 1;
    }

    /** `docker network rm id`; an empty ID names no network. */
    method RemoveNetwork(id: string) returns (r: CommandResult)
      modifies this`networkRemovals, this`failures, this`networks
      ensures networkRemovals == old(networkRemovals) + [id]
      ensures failures == old(failures) + if r.CommandDone? then 0 else 1
      ensures networks == old(networks) || networks == old(networks) - {id}
      ensures id == "" ==> networks == old(networks) && !r.CommandDone?
      ensures r.CommandDone? ==> networks == old(networks) - {id}
    {
      networkRemovals := networkRemovals + [id];
      var raises: bool, fails: bool, removed: bool := *, *, *;
      if id == "" {
        fails := true;
      } else if removed || !(raises || fails) {
        networks := networks - {id};
      }
      r := if raises then CommandRaised else if fails then CommandFailed else CommandDone;
      failures := failures + if r.CommandDone? then 0 else 1;
    }
  }
}
