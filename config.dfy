/** Settings the core reads and the artifact directory tree it writes into. */
module Config {

  /** `settings.artifacts_dir`, created at start-up. */
  const ArtifactsDir: string := "app/data/artifacts"

  /** `settings.alphafold_base_url`. */
  const AlphafoldBaseUrl: string := "https://alphafold.ebi.ac.uk/api/"

  /** `Path(settings.artifacts_dir) / run_id` rendered as a string. */
  function RunDir(runId: string): string {
    ArtifactsDir + "/" + runId
  }

  /** The part of the file system the back end itself writes: the directories it
      has created and the text files it has written, by full path. Images and
      structures that RDKit or PIL write are not tracked here. */
  class ArtifactStore {
    var dirs: set<string>
    var files: map<string, string>

    /** Start-up creates the artifacts root and nothing else. */
    constructor ()
      ensures dirs == {ArtifactsDir} && files == map[]
    {
      dirs := {ArtifactsDir};
      files := map[];
    }

    /** `mkdir(parents=True, exist_ok=True)`: never fails, idempotent. */
    method MakeDir(d: string)
      modifies this
      ensures dirs == old(dirs) + {d} && files == old(files)
    {
      dirs := dirs + {d};
    }

    /** `open(dir / name, 'w').write(content)`: fails when the directory is missing. */
    method WriteText(dir: string, name: string, content: string) returns (ok: bool)
      modifies this
      ensures ok <==> dir in old(dirs)
      ensures dirs == old(dirs)
      ensures files == if ok then old(files)[dir + "/" + name := content] else old(files)
    {
      ok := dir in dirs;
      if ok {
        files := files[dir + "/" + name := content];
      }
    }
  }
}
