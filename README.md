# DainMedic core, modelled in Dafny

DainMedic is a drug-design service. A FastAPI back end offers two generation
flows. The TTD flow takes the known drugs for a UniProt target and keeps those
whose drug-likeness (QED), LogP and molecular weight pass a filter. The
structure flow takes a protein structure, generates candidate SMILES and docks
them. Both record each run in an in-memory run registry and write artifacts
under `app/data/artifacts/<run_id>`. A download API then serves a run's files
one by one or as a zip archive. A React front end has a screen for each flow,
a results panel with download buttons, and molecule cards.

This project models the logic under that glue:

- `RunRegistry` (`generate.dfy`) is the run registry, modelled as a class. Its
  `runs` map is reassigned step by step as a run moves 10 → 30 (→ 60) → 90 → 100.
  A ghost `writes` log records every stored record, so that the progress trace
  can be stated.
- Selection in the TTD flow works like this. The candidates are cut to
  `max_molecules`. Properties are filled in and the truthiness filter is applied
  (a loop, `OptimizeTtdCandidates`). The kept subsequence is sorted stably by QED
  in descending order. Then the `.smi` lines are written.
- The structure flow chooses a protein source, runs the generator, builds
  `gen_<i>` records (a loop, `ProcessGenerated`) and sorts them stably by
  docking score in ascending order.
- The download endpoint checks in a fixed order, finds the first molecule whose
  id matches, selects the zip members by glob pattern, and lists runs.
- The services are modelled with their randomness, network replies and RDKit
  outcomes as parameters. They are: the fallback property estimator with its
  clamps; the filter; the fallback SMILES lists; the fallback docking score
  with its capped pharmacophore rewards; the BioNeMo fallback sampling without
  replacement; the TTD fallback table and API projection; and the protein URLs
  and paths.
- The request schemas are modelled with their bounds and defaults.
- The front end is modelled as follows:
  - the API client's paths, held against the server's reading of a download
    path;
  - the results panel's file naming, value formatting, truncation and
    first-six rule;
  - the structure screen's extension check, submit validation and form, held
    against the form the endpoint reads back;
  - the TTD screen's defaults, sliders and request, held against the schema's
    parse;
  - the molecule card's QED badge.

Python's stable `list.sort` is `Seqs.SortBy`, a stable insertion sort. Proofs
show that its output is sorted, a permutation of its input, and stable.
Filtering loops are proved against `Seqs.Select`, which keeps the elements
whose mask bit is set.

Values the program gets from outside are parameters:

- random draws (`EstimateDraws`, docking noise and offset, sample positions);
- HTTP replies (`HttpReply`, `AlphafoldMeta`, `ApiReply`, the BioNeMo result);
- RDKit outcomes (`RdkitResult`, `RenderResult`);
- tool availability;
- the fallback CSV file (`FallbackFile`);
- the artifacts directory listing (`Disk`);
- run ids, which are fresh opaque strings.

The files the flows create are tracked by name in `Config.ArtifactStore`.

Two modelling decisions follow the code rather than the prose description:

- Only the uppercase `N`/`O`/`S`/`Cl`/`F` substrings count in the docking
  score. The lowercase aromatic letters count separately.
- Pydantic refuses a `NaN` id or name from the CSV. One such row among the
  selected rows therefore empties the whole TTD fallback lookup, through its
  `except`.

## Model

| member | source | states |
|---|---|---|
| Schemas.StatusTextRoundTrip | backend/app/models/schemas.py:5-9 | Each of the four statuses has its own wire text, and each text parses back to exactly that status. |
| Schemas.NewMolecule | backend/app/models/schemas.py:11-25 | A record built from a SMILES alone has every other field None. |
| Schemas.ParseTtdRequest | backend/app/models/schemas.py:27-33 | A body parses iff the id is present, max_molecules (default 10) is in [1,20] and qed_threshold (default 0.5) is in [0,1]. The parsed request carries the given values or the defaults (-2,5) and (200,500). Otherwise a non-empty error list is returned. |
| Schemas.TtdRequestDefaults | backend/app/models/schemas.py:29-33 | The id alone gets all defaults (10, 0.5, (-2,5), (200,500)), and an inverted LogP range is still accepted. |
| Schemas.ParseStructureRequest | backend/app/models/schemas.py:35-41 | Parses iff the source is present and max_molecules is in [1,20]. The ids pass through, and use_bionemo defaults to true. |
| Schemas.NewResponse | backend/app/models/schemas.py:43-49 | A response built without molecules or progress has an empty list and no progress. |
| Config.ArtifactStore.constructor | backend/app/core/config.py:20 | The store starts with only the artifacts root directory and no files. |
| Config.ArtifactStore.MakeDir | backend/app/services/protein.py:60 | `mkdir(parents=True, exist_ok=True)` adds the directory and changes no file. |
| Config.ArtifactStore.WriteText | backend/app/api/generate.py:96-98 | `open(path, 'w')` succeeds iff the directory exists, in which case exactly that file gets the text. Directories are unchanged. |
| RdkitUtils.Clamp | backend/app/services/rdkit_utils.py:69-71 | `min(max(x, lo), hi)` lies in [lo,hi]. It is x inside the window and the nearer bound outside it. |
| RdkitUtils.EstimatePropertiesFallback | backend/app/services/rdkit_utils.py:63-81 | All seven properties are present: MW in [200,600], LogP in [-3,6], QED in [0.1,0.9], TPSA in [50,120], HBD 0..5, HBA 1..8, rotatable bonds 2..10. |
| RdkitUtils.EstimatedMwWindow | backend/app/services/rdkit_utils.py:66-69 | Inside the clamp window the weight is 8·length + jitter, and 63 or more characters always give 600. |
| RdkitUtils.CalculateProperties | backend/app/services/rdkit_utils.py:38-61 | Without RDKit, for an unparsable SMILES or when descriptors fail, the result is the fallback estimate. Otherwise the seven values are exactly RDKit's QED, LogP, MW, TPSA, HBD, HBA and rotatable bonds. All seven keys are always present. |
| RdkitUtils.FilterMolecules | backend/app/services/rdkit_utils.py:205-222 | The loop returns exactly the subsequence whose properties meet the inclusive bounds (missing keys read as 0), in input order, and a sub-multiset of the input. |
| RdkitUtils.FilterRejectsAllBelowFallbackWeight | backend/app/services/rdkit_utils.py:40-42 | Without RDKit, a weight window ending below 200 rejects every molecule. |
| RdkitUtils.GenerateFallbackMolecules | backend/app/services/rdkit_utils.py:224-240 | A prefix of the fixed list of 10, of length min(count,10). A negative count drops entries from the end, as Python slicing does. |
| RdkitUtils.OptimizeMolecule | backend/app/services/rdkit_utils.py:192-203 | Without RDKit the input comes back unchanged. With RDKit it is None iff the SMILES does not parse, and otherwise the input. |
| RdkitUtils.PlaceholderImageLines | backend/app/services/rdkit_utils.py:117-133 | Three caption lines. The SMILES line shows the SMILES, cut to 40 characters plus "..." only when it is longer than 40. |
| RdkitUtils.PlaceholderSdfShape | backend/app/services/rdkit_utils.py:169-190 | `.strip()` removes only the template's padding, so the text is header + SMILES + note. |
| RdkitUtils.PlaceholderSdfRoundTrip | backend/app/services/rdkit_utils.py:176-185 | The SMILES can be read back out of every placeholder SDF text. |
| Docking.ScaledNonNegative | backend/app/services/docking.py:98 | count × reward is non-negative for a non-negative reward. |
| Docking.Contribution | backend/app/services/docking.py:92-99 | Each pharmacophore adds min(count × reward, cap), which lies in [0, cap]. |
| Docking.ContributionOf | backend/app/services/docking.py:95-99 | The contribution is min(count × reward, cap) for the pattern's own count. |
| Docking.ContributionSumBounds | backend/app/services/docking.py:92-99 | The loop's total lies between 0 and the sum of the caps. |
| Docking.PharmacophoreCaps | backend/app/services/docking.py:83-96 | The rewards are non-negative, and the caps sum to 13 (five × 2.0 plus the aromatic 3.0). |
| Docking.BaseScoreBounds | backend/app/services/docking.py:76-99 | Before noise the score lies in [-2, 13]. It is at least 0 for SMILES of at most 100 characters and at most 11 for longer ones. |
| Docking.FallbackScoreBounds | backend/app/services/docking.py:101-107 | With noise in [-1,1] and offset in [3,8], the score lies in [-22, -3], so it is always negative. |
| Docking.FallbackScoring | backend/app/services/docking.py:73-107 | The loop over the pharmacophores computes the fallback score, which lies in [-22, -3]. |
| Docking.DockWithTool | backend/app/services/docking.py:52-71 | The smina and vina paths both always return None. |
| Docking.DockMolecule | backend/app/services/docking.py:35-50 | Whatever tools are available, the score is the fallback score, in [-22, -3]. |
| Bionemo.FallbackPool | backend/app/services/bionemo.py:61-80 | The pool is the first min(2·count,10) fixed SMILES followed by the 8 additional ones. |
| Bionemo.Pick | backend/app/services/bionemo.py:83 | The chosen elements are the pool entries at the drawn positions. |
| Bionemo.GenerateFallbackMolecules | backend/app/services/bionemo.py:61-83 | A negative count fails as `random.sample` does. Otherwise the result has min(count, pool size) elements drawn at distinct pool positions. |
| Bionemo.FallbackSampleFromPool | backend/app/services/bionemo.py:83 | Every sampled SMILES is in the pool, and the sample is a sub-multiset of it (no replacement). |
| Bionemo.DistinctPicksSubMultiset | backend/app/services/bionemo.py:83 | Elements taken at distinct positions form a sub-multiset of the pool. |
| Bionemo.GenerateMolecules | backend/app/services/bionemo.py:19-29 | The remote result is used iff endpoint and key are both set and it is non-empty. Otherwise the fallback sample is used. |
| Ttd.RowRecords | backend/app/services/ttd.py:77-81 | Each CSV row maps smiles→smiles, drug_id→mol_id and drug_name→name. |
| Ttd.RowMask | backend/app/services/ttd.py:72-76 | A row is selected iff its uniprot_id matches exactly and its smiles is not null. |
| Ttd.FetchFromFallback | backend/app/services/ttd.py:63-88 | The loop returns the fallback lookup: empty for a missing or unreadable file or an aborted read, otherwise the selected rows' records. |
| Ttd.FallbackLookupExactly | backend/app/services/ttd.py:72-84 | The lookup is exactly the selected rows, in file order, each mapped field by field, and it holds every selected row. A rejected row empties it. |
| Ttd.FallbackWithoutTable | backend/app/services/ttd.py:66-67 | A missing or unreadable file yields no molecules. |
| Ttd.SeedRowFacts | backend/app/services/ttd.py:90-141 | Of the 8 seeded rows exactly the first two are for P00533, and none is rejected. |
| Ttd.SeededEgfrRows | backend/app/services/ttd.py:92-141 | The P00533 lookup over the seeded table gives the records of rows 0 and 1. |
| Ttd.LookupFirstTwo | backend/app/services/ttd.py:72-84 | When exactly the first two rows are selected, the lookup is their two records. |
| Ttd.SeededEgfrLookup | backend/app/services/ttd.py:92-104 | The P00533 lookup is non-empty: Gefitinib (D00001), then Erlotinib (D00002). |
| Ttd.ItemRecords | backend/app/services/ttd.py:50-54 | Each API item maps smiles, drug_id→mol_id and name→name. |
| Ttd.ItemMask | backend/app/services/ttd.py:49 | An item is kept iff it has a "smiles" key. |
| Ttd.FetchFromTtdApi | backend/app/services/ttd.py:33-61 | The loop returns the API lookup: empty on failure or a non-200 reply, otherwise the projected items. |
| Ttd.ApiLookupExactly | backend/app/services/ttd.py:44-57 | Items without "smiles" are skipped. The others are kept in order, field by field, and all of them appear. |
| Ttd.GetMoleculesByUniprot | backend/app/services/ttd.py:21-31 | The API answer is used iff base URL and key are both set and it is non-empty. Otherwise the fallback table answers. |
| Protein.PdbUrl | backend/app/services/protein.py:46 | The URL is the RCSB download prefix, then the id, then ".pdb". |
| Protein.PdbUrlRoundTrip | backend/app/services/protein.py:46 | The id can be read back from the URL, uppercased. Two ids give the same URL iff they are equal once uppercased. |
| Protein.AlphafoldUrl | backend/app/services/protein.py:22 | The URL is the configured base, then "prediction/", then the UniProt id. |
| Protein.FetchPdbStructure | backend/app/services/protein.py:42-55 | The result is the body iff the reply is a 200, and None on any other status or on an exception. |
| Protein.FetchAlphafoldStructure | backend/app/services/protein.py:17-40 | The result is the PDB body iff the metadata has a first entry with a pdbUrl and that download returns 200. Otherwise it is None. |
| Protein.StructurePath | backend/app/services/protein.py:59-62 | The path is `<artifacts_dir>/<run_id>/protein.pdb`. |
| Protein.SaveStructureToFile | backend/app/services/protein.py:57-66 | Creates the run directory, writes the structure to that path and returns the path. |
| Protein.ExtractBindingSite | backend/app/services/protein.py:68-72 | Returns its input unchanged. |
| Seqs.SelectExactly | backend/app/services/rdkit_utils.py:215-222 | A filtered list is exactly the elements whose keep bit is set, in their original order, and every kept element is in it. |
| Seqs.SortByPermutation | backend/app/api/generate.py:91 | The stable sort's output is sorted by the key and is a permutation of the input. |
| Seqs.SortByStable | backend/app/api/generate.py:222 | Elements with equal keys keep their relative order. |
| Generate.SmiTextPrefix | backend/app/api/generate.py:96-98 | The .smi text of a list starts with the .smi text of each of its prefixes. |
| Generate.SmiTextLine | backend/app/api/generate.py:227-229 | Line k of the .smi text is `smiles\t(name or mol_id)` (TTD) or `smiles\tmol_id` (structure) for output molecule k. |
| Generate.FallbackCandidates | backend/app/api/generate.py:43-47 | Without TTD molecules, the candidates are the first min(max_molecules,10) fixed SMILES, tagged `fallback_<i>`. |
| Generate.TtdWork | backend/app/api/generate.py:54 | At most max_molecules molecules are considered. |
| Generate.TtdAnnotated | backend/app/api/generate.py:54-86 | Molecule i keeps its SMILES, id and name, and gets exactly the seven properties computed for its SMILES. Its PNG and SDF paths are `molecule_<i>.png`/`.sdf` under the run directory when that render succeeded, and stay as they were otherwise. |
| Generate.TtdMask | backend/app/api/generate.py:68-70 | A molecule is kept iff QED, LogP and MW are truthy (0 is rejected), QED ≥ threshold, and LogP and MW lie in the inclusive ranges. |
| Generate.TtdOutputBounded | backend/app/api/generate.py:54 | The TTD output has at most max_molecules molecules. |
| Generate.TtdOutputOrder | backend/app/api/generate.py:86-91 | The output is a permutation of the kept subsequence, sorted by QED in descending order (None as 0), and stable. |
| Generate.TtdOutputPasses | backend/app/api/generate.py:67-86 | Every output molecule passes the filter and is one of the considered molecules. |
| Generate.TtdOutputComplete | backend/app/api/generate.py:67-86 | Every considered molecule that passes the filter is in the output. |
| Generate.TtdFallbackWork | backend/app/api/generate.py:43-54 | Without TTD data the work list has min(max_molecules,10) entries, `fallback_<i>` with the fixed SMILES. |
| Generate.Steps | backend/app/api/generate.py:49 | The intermediate records are Running with the given progress values. |
| Generate.StepsWellFormed | backend/app/api/generate.py:34-49 | Steps that start at 10 and grow strictly, followed by a terminal record, form a well-formed run trace. |
| Generate.TtdTraceWellFormed | backend/app/api/generate.py:34-122 | The TTD run goes 10→30→90 and then ends either Completed at 100 with the sorted output, or Failed at 0 with no molecules and an error. It completes iff the .smi file can be written. |
| Generate.TtdEmptySelectionFails | backend/app/api/generate.py:73-74 | As written, a run that keeps nothing and has no run directory fails with the missing-file error, and its reply is that 500. |
| Generate.TtdThresholdOneFails | backend/app/api/generate.py:94-98 | With no TTD data, no RDKit and a threshold of 1.0, nothing passes and the run fails. |
| Generate.TtdIntendedCompletes | backend/app/api/generate.py:94-106 | When the directory is created before the write, every run completes at 100 with the sorted output. The result agrees with the code as written whenever that completes. |
| Generate.ObtainProtein | backend/app/api/generate.py:149-166 | An upload gives its text or its decoding error. A truthy UniProt id gives the AlphaFold structure, and a truthy PDB id gives the RCSB structure. Every other case, and an empty or missing structure, gives the 400 "Could not obtain protein structure". |
| Generate.ObtainProteinOnlyChosenSource | backend/app/api/generate.py:149-160 | The outcome depends only on the chosen source: the replies of the other sources do not change it. |
| Generate.StructureRecords | backend/app/api/generate.py:184-217 | Molecule i is `gen_i` with its SMILES, its properties, its docking score and its render paths. |
| Generate.StructureOutputFacts | backend/app/api/generate.py:184-222 | Every generated SMILES is kept. The output is a permutation of the records, sorted by docking score in ascending order (None as 0), and stable. Ids are distinct, and every score lies in [-22,-3]. |
| Generate.StructureTraceWellFormed | backend/app/api/generate.py:143-254 | The structure run goes 10→30→60→90 and then ends Completed at 100, or Failed at 0 with an error. It completes iff a protein was obtained and the generator succeeded. |
| Generate.OutcomeTraceWellFormed | backend/app/api/generate.py:168-254 | Once the protein is saved, the rest of the trace is well formed whatever the generator returned. |
| Generate.NegativeCountFails | backend/app/api/generate.py:174-177 | A negative count on the fallback path fails the run with the `random.sample` error. Only a client that bypasses the browser form can send one. |
| Generate.StatusOf | backend/app/api/generate.py:261-275 | An unknown run id is a 404 "Run not found". Otherwise the stored status, molecules and progress are echoed. |
| Generate.OptimizeTtdCandidates | backend/app/api/generate.py:52-86 | The loop returns the kept subsequence of the annotated molecules. It creates the run directory iff something is kept. |
| Generate.ProcessGenerated | backend/app/api/generate.py:182-217 | The loop returns one `gen_i` record per generated SMILES and leaves the store as it was. |
| Generate.RunGenerator | backend/app/api/generate.py:173-177 | BioNeMo is used iff use_bionemo is set and an endpoint is configured. Otherwise the local fallback is used. |
| Generate.RunRegistry.constructor | backend/app/api/generate.py:25 | The registry starts empty. |
| Generate.RunRegistry.Put | backend/app/api/generate.py:34-38 | Storing a record overwrites that run's entry, appends a new id to the order and logs the write. |
| Generate.RunRegistry.SetProgress | backend/app/api/generate.py:49 | Only the run's progress changes. |
| Generate.RunRegistry.Status | backend/app/api/generate.py:261-275 | The status endpoint reads the registry through `StatusOf`. |
| Generate.RunRegistry.GenerateTtd | backend/app/api/generate.py:27-127 | The whole TTD request: the final record, the reply, the directories and files, and the write log are those of the TTD flow. |
| Generate.RunRegistry.StartTtd | backend/app/api/generate.py:30-49 | The run is stored at 10 and then at 30, and the work list is the truncated candidates. |
| Generate.RunRegistry.ProcessTtd | backend/app/api/generate.py:52-106 | Filters, stores 90, sorts, writes the .smi file and stores the final record. |
| Generate.RunRegistry.FinishTtd | backend/app/api/generate.py:88-122 | Stores 90, then the completed record with the sorted output and the .smi file, or the failed record when the write fails. |
| Generate.RunRegistry.GenerateStructure | backend/app/api/generate.py:129-259 | The whole structure request: the final record, the trace, the reply and the files are those of the structure flow. Nothing is written when no protein is obtained. |
| Generate.RunRegistry.ContinueStructure | backend/app/api/generate.py:168-177 | Stores 30, saves the protein and runs the generator. |
| Generate.RunRegistry.CompleteStructure | backend/app/api/generate.py:179-254 | On a generator failure the run fails. Otherwise it continues as FinishStructure. |
| Generate.RunRegistry.FinishStructure | backend/app/api/generate.py:179-246 | Stores 60, processes, stores 90, sorts, writes the .smi file and completes at 100. |
| Download.GlobMask | backend/app/api/download.py:111 | One bit per directory entry: whether its name matches the pattern. |
| Download.FileMask | backend/app/api/download.py:118 | One bit per selected entry: whether it is a regular file. |
| Download.GlobExactly | backend/app/api/download.py:106-109 | The glob is exactly the matching entries in scan order, and every match is in it. |
| Download.CollectZipMembers | backend/app/api/download.py:117-120 | The loop adds exactly the regular files, each under its base name, in order. |
| Download.ZipMembersExactly | backend/app/api/download.py:117-120 | The zip members are exactly the names of the selected regular files, in order. |
| Download.GlobKeepsMatch | backend/app/api/download.py:106-109 | A matching entry makes the selection non-empty. |
| Download.GlobEmptyIff | backend/app/api/download.py:106-112 | The selection is empty iff no entry matches. |
| Download.CreateZipOutcome | backend/app/api/download.py:102-133 | 404 "No files found" iff nothing matches. Otherwise a zip whose header names the archive and whose members are the selected files. |
| Download.FindMolecule | backend/app/api/download.py:54 | The position of the first molecule whose mol_id equals the query, and None iff there is no such molecule. |
| Download.MoleculeFileFirstMatch | backend/app/api/download.py:50-85 | A single file is served only for the first matching molecule's recorded, existing path, named `<run>_<mol>.<ext>`. A 404 is returned iff no molecule matches or its path is unset. |
| Download.CheckOrder | backend/app/api/download.py:25-36 | In order: an unknown run is a 404, a run not completed is a 400, and a missing artifacts directory is a 404. A success implies all three checks passed and a known type. |
| Download.InvalidTypeRejected | backend/app/api/download.py:38-95 | Past the checks, "Invalid file type" (400) is returned iff the type is not smiles/png/sdf/all. |
| Download.ZipBranches | backend/app/api/download.py:66-92 | Without mol_id, png, sdf and all zip `*.png`, `*.sdf` and `*` under their archive names. |
| Download.MoleculeEndpointSingleFile | backend/app/api/download.py:97-100 | The molecule endpoint is the run endpoint with mol_id supplied. It never zips png/sdf and ignores the id for smiles/all. |
| Download.ListRuns | backend/app/api/download.py:135-149 | The loop gives one entry per run, in registry order, with status, progress, molecule_count equal to the list length, and whether the directory exists. The ids are distinct and cover the registry. |
| Api.BaseUrl | frontend/src/services/api.js:3 | The base URL is the env value when it is truthy, else `http://localhost:8000/api`. |
| Api.DownloadRoundTrip | frontend/src/services/api.js:39-43 | The server reads back exactly the run, the type and the molecule id the client put in `/download/run/{runId}/{fileType}[?mol_id=…]`. A falsy id arrives as no id. |
| Api.SplitQueryOf | frontend/src/services/api.js:41-43 | `?mol_id=` is appended iff the id is truthy, and the server's query split recovers it. |
| Api.OtherPathsNotDownloads | frontend/src/services/api.js:18-54 | The status, generation and list paths are never routed as downloads. |
| Api.FailureText | frontend/src/components/TTDOptimizationFlow.js:52 | The error shown is the server's detail when truthy, else a fixed message, so it is never empty. |
| MoleculeResults.FilenameShape | frontend/src/components/MoleculeResults.js:41-46 | The name is `{run}_{mol}.{type}` with an id, else `{run}_{type}.smi` for smiles and `{run}_{type}.{type}` otherwise. |
| MoleculeResults.FilenameVersusServer | backend/app/api/download.py:44-63 | The single-file names agree with the server's. The SMILES file is saved as `<run>_smiles.smi`, while the server calls it `<run>_molecules.smi`. |
| MoleculeResults.NotAvailableCells | frontend/src/components/MoleculeResults.js:56-60 | `formatValue` gives N/A exactly for a missing value, while the HBD/HBA cells give N/A for any falsy value, 0 included. |
| MoleculeResults.DisplaySmiles | frontend/src/components/MoleculeResults.js:134-136 | The card shows the first 50 characters plus "..." iff the SMILES is longer than 50. |
| MoleculeResults.CardsFirstSix | frontend/src/components/MoleculeResults.js:107 | The cards are a prefix of at most 6 molecules, and the notice is shown iff a molecule is left out. |
| MoleculeResults.CardTitleNonEmpty | frontend/src/components/MoleculeResults.js:113 | A card's title is never empty, and untitled molecules at different positions get different titles. |
| MoleculeResults.ResultsPanel.constructor | frontend/src/components/MoleculeResults.js:28-29 | The panel starts not downloading, with no error and nothing saved. |
| MoleculeResults.ResultsPanel.HandleDownload | frontend/src/components/MoleculeResults.js:32-54 | Without a run id nothing happens. Otherwise the run's download path is requested, and the blob is saved under the download file name or the error is set. Either way the panel ends not downloading. |
| StructureFlow.AcceptedIffSuffix | frontend/src/components/StructureGenerationFlow.js:39-42 | A file is accepted iff its lowercased name ends in ".pdb" or ".txt". |
| StructureFlow.AcceptedHasSuffix | frontend/src/components/StructureGenerationFlow.js:40 | The extension of an accepted name is its last four characters, lowercased. |
| StructureFlow.SuffixExtension | frontend/src/components/StructureGenerationFlow.js:40 | The extension is the lowercased suffix from the last '.'. |
| StructureFlow.SubmitRefusals | frontend/src/components/StructureGenerationFlow.js:56-69 | A submit is refused exactly for an upload without a file, or a uniprot/pdb source whose id is blank. |
| StructureFlow.SubmittedFormReadBack | frontend/src/components/StructureGenerationFlow.js:77-88 | A valid submit sends the three fixed fields and exactly one source field. The endpoint reads back the source, count, flag and the trimmed, non-empty id. |
| StructureFlow.SourceFieldsRead | frontend/src/components/StructureGenerationFlow.js:82-88 | Exactly one of protein_file, trimmed uniprot_id or trimmed pdb_id is added, chosen by the source. |
| StructureFlow.ReadFixedFields | backend/app/api/generate.py:130-136 | The endpoint reads protein_source, max_molecules and use_bionemo from the fixed fields, and the ids from what follows them. |
| StructureFlow.Lookup | backend/app/api/generate.py:130-136 | A form field is found iff an entry for it was appended. |
| StructureFlow.StructureScreen.constructor | frontend/src/components/StructureGenerationFlow.js:24-33 | The screen starts with upload, P00533, 1M17, 10 and BioNeMo on, and with no file, error or results. |
| StructureFlow.StructureScreen.Edit | frontend/src/components/StructureGenerationFlow.js:24-28 | The inputs take the new values, and nothing else changes. |
| StructureFlow.StructureScreen.HandleFileChange | frontend/src/components/StructureGenerationFlow.js:35-50 | An accepted file is stored and the error cleared. A rejected file is not stored and the error is set. No file changes nothing. |
| StructureFlow.StructureScreen.HandleSubmit | frontend/src/components/StructureGenerationFlow.js:52-97 | A count outside [1,20] is stopped by the browser's form validation: nothing changes and nothing is sent. Otherwise a refused submit only sets its message and sends nothing, and an accepted one sends the form and ends not loading, with the results or the error text. |
| TtdFlow.SentRequestParsed | frontend/src/components/TTDOptimizationFlow.js:41-47 | The back end takes a request built from the screen's values unchanged (with the trimmed id) iff the count lies in [1,20]. Otherwise only max_molecules is refused, which only a client bypassing the form can cause. |
| TtdFlow.SubmittedRequestAccepted | frontend/src/components/TTDOptimizationFlow.js:84-90 | Every request the screen actually sends (sliders in bounds, count in [1,20]) is parsed by the back end exactly as sent, with the trimmed id. |
| TtdFlow.DefaultsSameAsOmitted | frontend/src/components/TTDOptimizationFlow.js:18-22 | Sending the back end's defaults is the same as sending the id alone. |
| TtdFlow.InitialValuesAreDefaults | frontend/src/components/TTDOptimizationFlow.js:18-22 | The screen's initial values are the schema defaults and lie within the slider bounds. |
| TtdFlow.SubmittedRequestFacts | frontend/src/components/TTDOptimizationFlow.js:31-47 | A sent request has a non-blank id, an accepted threshold and ordered ranges. |
| TtdFlow.TtdScreen.constructor | frontend/src/components/TTDOptimizationFlow.js:18-26 | The screen starts at P00533, 10, 0.5, (-2,5) and (200,500), not loading, with no error or results. |
| TtdFlow.TtdScreen.Type | frontend/src/components/TTDOptimizationFlow.js:74-93 | The id and count fields take any value, and the slider values are kept. |
| TtdFlow.TtdScreen.Slide | frontend/src/components/TTDOptimizationFlow.js:98-140 | The sliders keep QED in [0,1], LogP in [-3,6] and MW in [100,600], with each range's ends in order. |
| TtdFlow.TtdScreen.HandleSubmit | frontend/src/components/TTDOptimizationFlow.js:28-56 | A count outside [1,20] is stopped by the browser's form validation: nothing changes and nothing is sent. Otherwise a blank id sets the error and sends nothing, and any other id sends the trimmed request and ends not loading, with the results or the error text. |
| MoleculeCard.QedSourceChoice | frontend/src/components/MoleculeCard.tsx:5 | QED is a numeric druglikeness, else `admet.qed`. It is numeric iff one of the two is, and never null. |
| MoleculeCard.BadgeClassification | frontend/src/components/MoleculeCard.tsx:7-16 | The badge is success iff ≥ 0.7, warning iff in [0.5,0.7) or undefined, and danger iff < 0.5. No QED badge is drawn for an undefined value. |
| MoleculeCard.BadgeOfExactQed | frontend/src/components/MoleculeCard.tsx:6-7 | After rounding to hundredths, the badge thresholds on the exact QED are 0.695 and 0.495. |
| Common.TrimEmptyIffBlank | frontend/src/components/TTDOptimizationFlow.js:31 | `!s.trim()` holds exactly for all-white-space text. |
| Common.Truncate | backend/app/services/rdkit_utils.py:121 | A text longer than n becomes its first n characters plus "...". Otherwise it is unchanged. |
| Common.TruncateIdempotent | frontend/src/components/MoleculeResults.js:134-136 | Truncating twice is truncating once. |
| Common.NatToStringInjective | backend/app/api/generate.py:193 | Distinct positions give distinct `gen_<i>` / `fallback_<i>` ids. |
| Common.NatToStringRoundTrip | backend/app/api/generate.py:46 | The decimal text of a position reads back as that position. |

## Left out

- Network I/O (httpx calls to TTD, BioNeMo, AlphaFold and RCSB, and axios in the front end) is replaced by reply values passed as parameters.
- The RDKit and PIL internals (QED, descriptors, drawing, embedding, SDWriter) are replaced by `RdkitResult`/`RenderResult` values. `smiles_to_mol` and `is_available` are folded into `RdkitResult`.
- Randomness is replaced by draws passed in with range preconditions: `random.uniform`, `randint`, and `random.sample`'s positions.
- The smina/vina `subprocess` availability checks become booleans.
- Only file names are kept. The bytes of zip archives, images and SDF files, and temporary files, are not modelled. `Config.ArtifactStore` tracks the `.smi` and protein files by path, not the image or SDF files.
- `create_fallback_data` writing its CSV is not modelled; only its rows are (`Ttd.SeedRows`).
- Concurrency is not modelled: requests run one at a time, although the shared `active_runs` map is mutated by interleaved async requests.
- FastAPI routing, app wiring (main.py), and the translation of exceptions into HTTP 500 are left out. Failures are modelled only where the code raises them: the missing protein, the `.smi` write, `random.sample` and pydantic validation.
- uuid generation is left out; the run id is a parameter.
- `print` logging is left out.
- Floating point is modelled with exact `real` arithmetic. `toFixed` is modelled only as `MoleculeCard.Fixed2`; the other formatting is the `Cell` value `Fixed(value, decimals)`.
- Generate.StatusOf: the message `Run <status> (<progress>%)` uses the status's value text ("completed"), which is what Python 3.10 and earlier print for a `str`-mixin enum in an f-string. From Python 3.11 the f-string prints the member ("GenerationStatus.COMPLETED"). No Python version is pinned, and the message is not stated by any contract.
- The count fields are modelled as integers. The browser's validation (min 1, max 20, step 1) blocks every non-integer, empty or out-of-range entry before `handleSubmit`, so `Number(...)` values such as NaN or 2.5 are never sent.
- A TTD API reply is a parameter whose `drug_id` is text or absent. A numeric `drug_id`, which pydantic refuses for `Optional[str]` and so empties the API lookup, is not represented.
- Api.DownloadRoundTrip: stated only for run ids and file types without '/', '?', '#' or '%' and for molecule ids without '&', '#', '%' or '+'. The client does not escape them, and the server's percent-decoding is not modelled.
- Case mapping (`toLowerCase`, `upper()`) and `trim`/`strip` are modelled on ASCII only.
- FormData turns numbers and flags into strings and the endpoint parses them back. The model sends them as typed values.
- downloadBlob's DOM work is modelled as the `saved` list of file names.
- MUI rendering, the detail dialog and the table layout are left out.
- The directory scan order of `glob` is an input (`Disk.listing`).
- The `progress` default of 0 in `get_generation_status` and `list_runs` is not modelled: every stored record has a progress.
- `StructureRequest` is modelled as a schema, but the structure endpoint reads form fields (`StructureFlow.ServerForm`), as the code does.
- `backend/app/core/config.py` limits that nothing enforces (`max_molecules_per_run`, `max_concurrent_runs`, `max_file_size`) are left out.
- The mock-only screens (`App.js`, `App.tsx`, `pages/*.tsx`) are not part of this model.
- `_generate_with_bionemo`'s request body is not modelled; its result is a parameter.

## Findings

| source | as written | input that shows it | evidently intended | confidence | as-written member | corrected member |
|---|---|---|---|---|---|---|
| backend/app/api/generate.py:73-74,94-98 | The TTD flow creates the run directory only inside the loop, when a molecule passes the filter. Writing `molecules.smi` then fails for a run that keeps nothing, and the run ends failed with a 500. | No TTD data, RDKit unavailable, qed_threshold 1.0: the fallback QED never exceeds 0.9, so nothing passes. | Create the run directory before writing `molecules.smi`, so that an empty selection completes with no molecules. | not executed | Generate.TtdThresholdOneFails | Generate.TtdIntendedCompletes |
