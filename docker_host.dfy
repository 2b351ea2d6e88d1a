/**
 * The machine the sandboxes run on, as far as agents/tool_executor.py and
 * coder/sandbox.py touch it: temporary directories and the files in them, the
 * local image store, and the Docker daemon's containers. Every call that can
 * raise in the source, except deleting a temporary directory, may fail here,
 * with an arbitrary message; what a call returns on success is arbitrary too.
 * Each call is recorded in `trace`.
 */
module DockerHost {
  import opened Wrappers

  /** A temporary directory, named by a serial number. */
  type Dir = nat

  /** A container, named by a serial number. */
  type ContainerId = nat

  /** A file `name` inside directory `dir`. */
  datatype Path = Path(dir: Dir, name: string)

  /** One entry of `volumes=`: where the host directory appears in the container, and how. */
  datatype Mount = Mount(bind: string, mode: string)

  /** The keyword arguments of `client.containers.run(image, ...)`. */
  datatype LaunchConfig = LaunchConfig(
    image: string,
    command: seq<string>,
    volumes: map<Dir, Mount>,
    workingDir: string,
    memLimit: string,
    networkDisabled: bool,
    detach: bool)

  /** One call on the host, with what it gave back. */
  datatype Event =
    | ImageGet(image: string, failure: Option<string>)
    | ImagePull(image: string, failure: Option<string>)
    | TempDirCreate(created: Result<Dir, string>)
    | FileWrite(path: Path, content: string, failure: Option<string>)
    | ContainerRun(config: LaunchConfig, started: Result<ContainerId, string>, unstarted: Option<ContainerId>)
    | ContainerWait(id: ContainerId, status: Result<int, string>)
    | ContainerLogs(id: ContainerId, stdout: bool, stderr: bool, text: Result<string, string>)
    | ContainerRemove(id: ContainerId, failure: Option<string>)
    | TempDirDelete(dir: Dir)

  class Host {
    var images: set<string>
    var dirs: set<Dir>
    var files: map<Path, string>
    /** Containers created and not yet removed, whether running or exited. */
    var live: set<ContainerId>
    var trace: seq<Event>
    var nextDir: nat
    var nextContainer: nat

    /** Serial numbers are never reused, and every file sits in an existing directory. */
    ghost predicate Valid()
      reads this
    {
      && (forall d :: d in dirs ==> d < nextDir)
      && (forall c :: c in live ==> c < nextContainer)
      && (forall p :: p in files ==> p.dir in dirs)
    }

    constructor (images: set<string>)
      ensures Valid()
      ensures this.images == images && dirs == {} && files == map[] && live == {} && trace == []
    {
      this.images := images;
      dirs, files, live, trace := {}, map[], {}, [];
      nextDir, nextContainer := 0, 0;
    }

    /** `client.images.get(image)`: raises when the image is not stored locally, and may raise anyway. */
    method GetImage(image: string) returns (failure: Option<string>)
      requires Valid()
      modifies this
      ensures Valid()
      ensures images == old(images) && dirs == old(dirs) && files == old(files) && live == old(live)
      ensures image !in images ==> failure.Some?
      ensures trace == old(trace) + [ImageGet(image, failure)]
    {
      var ok: bool :| true;
      if ok && image in images {
        failure := None;
      } else {
        var message: string :| true;
        failure := Some(message);
      }
      trace := trace + [ImageGet(image, failure)];
    }

    /** `client.images.pull(image)`: stores the image, or raises. */
    method PullImage(image: string) returns (failure: Option<string>)
      requires Valid()
      modifies this
      ensures Valid()
      ensures dirs == old(dirs) && files == old(files) && live == old(live)
      ensures images == if failure.None? then old(images) + {image} else old(images)
      ensures trace == old(trace) + [ImagePull(image, failure)]
    {
      var ok: bool :| true;
      if ok {
        failure := None;
        images := images + {image};
      } else {
        var message: string :| true;
        failure := Some(message);
      }
      trace := trace + [ImagePull(image, failure)];
    }

    /** Entering `tempfile.TemporaryDirectory()`: a new, empty directory, or an exception. */
    method CreateTempDir() returns (created: Result<Dir, string>)
      requires Valid()
      modifies this
      ensures Valid()
      ensures images == old(images) && files == old(files) && live == old(live)
      ensures created.Success? ==> created.value !in old(dirs) && dirs == old(dirs) + {created.value}
      ensures created.Failure? ==> dirs == old(dirs)
      ensures trace == old(trace) + [TempDirCreate(created)]
    {
      var ok: bool :| true;
      if ok {
        created := Success(nextDir);
        dirs := dirs + {nextDir};
        nextDir := nextDir + 1;
      } else {
        var message: string :| true;
        created := Failure(message);
      }
      trace := trace + [TempDirCreate(created)];
    }

    /** Leaving the `with` block: the directory and everything in it are deleted. */
    method DeleteTempDir(dir: Dir)
      requires Valid()
      modifies this
      ensures Valid()
      ensures images == old(images) && live == old(live)
      ensures dirs == old(dirs) - {dir}
      ensures forall p :: p in files <==> p in old(files) && p.dir != dir
      ensures forall p :: p in files ==> files[p] == old(files)[p]
      ensures trace == old(trace) + [TempDirDelete(dir)]
    {
      dirs := dirs - {dir};
      files := map p | p in files && p.dir != dir :: files[p];
      trace := trace + [TempDirDelete(dir)];
    }

    /** `open(path, "w")` followed by `f.write(content)`. */
    method WriteFile(path: Path, content: string) returns (failure: Option<string>)
      requires Valid() && path.dir in dirs
      modifies this
      ensures Valid()
      ensures images == old(images) && dirs == old(dirs) && live == old(live)
      ensures files == if failure.None? then old(files)[path := content] else old(files)
      ensures trace == old(trace) + [FileWrite(path, content, failure)]
    {
      var ok: bool :| true;
      if ok {
        failure := None;
        files := files[path := content];
      } else {
        var message: string :| true;
        failure := Some(message);
      }
      trace := trace + [FileWrite(path, content, failure)];
    }

    /**
     * `client.containers.run(..., detach=True)`: create a container, pulling the image
     * first when it is not stored, then start it. Either a new running container, or an
     * exception; when the exception comes from starting, the container that was created
     * (`unstarted`) stays behind.
     */
    method RunContainer(config: LaunchConfig) returns (started: Result<ContainerId, string>, unstarted: Option<ContainerId>)
      requires Valid()
      modifies this
      ensures Valid()
      ensures dirs == old(dirs) && files == old(files)
      ensures old(images) <= images <= old(images) + {config.image}
      ensures config.image in old(images) ==> images == old(images)
      ensures started.Success? ==> unstarted.None?
      ensures started.Success? ==> started.value !in old(live) && live == old(live) + {started.value}
      ensures started.Failure? && unstarted.Some? ==> unstarted.value !in old(live) && live == old(live) + {unstarted.value}
      ensures started.Failure? && unstarted.None? ==> live == old(live)
      ensures trace == old(trace) + [ContainerRun(config, started, unstarted)]
    {
      var pulled: bool :| true;
      if pulled {
        images := images + {config.image};
      }
      var created: bool :| true;
      var ok: bool :| true;
      unstarted := None;
      if created && ok {
        started := Success(nextContainer);
        live := live + {nextContainer};
        nextContainer := nextContainer + 1;
      } else {
        var message: string :| true;
        started := Failure(message);
        if created {
          unstarted := Some(nextContainer);
          live := live + {nextContainer};
          nextContainer := nextContainer + 1;
        }
      }
      trace := trace + [ContainerRun(config, started, unstarted)];
    }

    /** `container.wait()["StatusCode"]`. */
    method Wait(id: ContainerId) returns (status: Result<int, string>)
      requires Valid()
      modifies this
      ensures Valid()
      ensures images == old(images) && dirs == old(dirs) && files == old(files) && live == old(live)
      ensures trace == old(trace) + [ContainerWait(id, status)]
    {
      var ok: bool :| true;
      if ok {
        var code: int :| true;
        status := Success(code);
      } else {
        var message: string :| true;
        status := Failure(message);
      }
      trace := trace + [ContainerWait(id, status)];
    }

    /** `container.logs(stdout=..., stderr=...).decode()`; a failed decode fails the call. */
    method Logs(id: ContainerId, stdout: bool, stderr: bool) returns (text: Result<string, string>)
      requires Valid()
      modifies this
      ensures Valid()
      ensures images == old(images) && dirs == old(dirs) && files == old(files) && live == old(live)
      ensures trace == old(trace) + [ContainerLogs(id, stdout, stderr, text)]
    {
      var ok: bool :| true;
      if ok {
        var s: string :| true;
        text := Success(s);
      } else {
        var message: string :| true;
        text := Failure(message);
      }
      trace := trace + [ContainerLogs(id, stdout, stderr, text)];
    }

    /** `container.remove()`: the container is gone, or an exception and it stays. */
    method RemoveContainer(id: ContainerId) returns (failure: Option<string>)
      requires Valid()
      modifies this
      ensures Valid()
      ensures images == old(images) && dirs == old(dirs) && files == old(files)
      ensures live == if failure.None? then old(live) - {id} else old(live)
      ensures trace == old(trace) + [ContainerRemove(id, failure)]
    {
      var ok: bool :| true;
      if ok {
        failure := None;
        live := live - {id};
      } else {
        var message: string :| true;
        failure := Some(message);
      }
      trace := trace + [ContainerRemove(id, failure)];
    }
  }
}
