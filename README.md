# biomedgraph core, modelled in Dafny

biomedgraph downloads flat files from public biomedical sources and turns them
into graph records. These sources include Ensembl, RefSeq, NCBI Gene, UniProt,
MeSH, the Gene Ontology, Reactome, miRBase, miRDB, HGNC, GTEx, SwissLipids,
LNCipedia, HomoloGene and the OBO Foundry.

The datasources name releases, list the remote versions and build local file
paths. The parsers read the downloaded files line by line or record by record.
They fill `NodeSet`s and `RelationshipSet`s (label, merge keys, property maps),
which are later merged into a Neo4j database.

This project models the core of that pipeline and proves what it does:

- **Shared modules.**
  - `Results`: `Option`, `Result` and the Python exceptions the code can raise.
  - `PyStr`, `PyDict`, `PyPath`: Python's `str` methods, the insertion-ordered `dict` and `posixpath.join`.
  - `Graph`: node and relationship records. A set is an append-only log of what the parser added.
  - `Dedup`: the "check set" idiom. An entry is appended only when its key is new, so the log holds each key once.
  - `Scan`: a single pass over rows that stops for good at the first row that raises. Every parser loop is proved equal to a `Scan.Run` over its rows.
- **The OBO cleaner** (`OboHelper`, `OboFoundry`): it removes spaces from the cross-reference lists at the end of OBO lines and leaves the file header untouched.
- **`TaxTranslator`**: it turns organism names into NCBI taxonomy ids, with its lookup order, its abbreviation fallback and its query cache.
- **One module per parser.** Each parser is a class whose fields are the output logs and the check sets it mutates. Each `run` method is proved to leave exactly the state a specification function computes from the input lines or records. Lemmas then state what that state contains: one node per distinct id, at most one relationship per pair, which rows are filtered out, and where an exception stops the loop.
- **The datasource helpers** (`EnsemblSource`, `UniprotSource`, `RefseqSource`, `Releases`): release directory names, version extraction from FTP listings, the Ensembl species dictionaries, and the local paths of the downloaded files.

Files, the network, the FTP listing and the REST answer are inputs to the
model. Each reader the source uses (GTF/GFF, EMBL, XML, pandas) is replaced by
the values it would yield.

## Model

| member | source | states |
|---|---|---|
| OboHelper.CleanKey | biomedgraph/parser/helper/obo.py:137 | the cleaned key holds no space and no backslash, holds only characters of the key, and a key that had neither is kept as it is |
| OboHelper.CleanValue | biomedgraph/parser/helper/obo.py:139-146 | the cleaned value holds no space and no backslash |
| OboHelper.CleanValueClean | biomedgraph/parser/helper/obo.py:139-146 | a value with no space, no backslash and no trailing comma is its own cleaning (idempotence on clean values) |
| OboHelper.CleanValueLeadingSpace | biomedgraph/parser/helper/obo.py:140-141 | exactly one space after the colon is dropped |
| OboHelper.CleanValueTrailingComma | biomedgraph/parser/helper/obo.py:143-144 | exactly one trailing comma is dropped |
| OboHelper.XrefParts | biomedgraph/parser/helper/obo.py:133-135 | the stripped xref is the key, ':' and the value, and the key holds no ':' (a split at the first colon only) |
| OboHelper.CleanKeyValueXrefElement | biomedgraph/parser/helper/obo.py:126-152 | a kept element holds no space, no backslash and still has its ':'; the two drop cases are KeyValueNested and KeyValueClosing |
| OboHelper.KeyValueFixpoint | biomedgraph/parser/helper/obo.py:133-152 | a well-formed `KEY:value` element comes back unchanged |
| OboHelper.KeyValueSpaceAfterColon | biomedgraph/parser/helper/obo.py:140-141 | `EC: 1.2.3.4` becomes `EC:1.2.3.4`: the space after the colon goes, nothing else changes |
| OboHelper.KeyValueNested | biomedgraph/parser/helper/obo.py:148-152 | a value that opens with '[' makes the element dropped (None) |
| OboHelper.KeyValueClosing | biomedgraph/parser/helper/obo.py:148-152 | a value that ends with ']', such as `ISBN:0198547684]`, makes the element dropped (None) |
| OboHelper.CleanValueClosing | biomedgraph/parser/helper/obo.py:139-146 | the value cleaning keeps a closing ']' at the end |
| OboHelper.CleanStringXrefElement | biomedgraph/parser/helper/obo.py:155-161 | the result holds no space, backslash, '[' or ']' and is never longer than the input |
| OboHelper.StringFixpoint | biomedgraph/parser/helper/obo.py:156 | a plain identifier without those characters or surrounding whitespace passes unchanged |
| OboHelper.CleanPieces | biomedgraph/parser/helper/obo.py:86-96 | at most one cleaned xref per comma-separated piece, each non-empty and free of spaces and backslashes |
| OboHelper.CollectCleanedXrefs | biomedgraph/parser/helper/obo.py:82-96 | the append loop collects exactly the kept cleanings of the pieces, in order |
| OboHelper.CleanedXrefs | biomedgraph/parser/helper/obo.py:85-108 | every xref kept from a bracketed definition is non-empty and free of spaces and backslashes, in all three branches |
| OboHelper.XrefDef | biomedgraph/parser/helper/obo.py:110-113 | the rebuilt definition is bracketed, and is `[]` when no xref survives |
| OboHelper.SecondLastOpen | biomedgraph/parser/helper/obo.py:66-67 | the second-to-last '[' exists exactly when the line holds at least two, and it is a '[' of the line |
| OboHelper.XrefValue | biomedgraph/parser/helper/obo.py:119-120 | a remainder without ':' is kept as it is |
| OboHelper.CleanLine | biomedgraph/parser/helper/obo.py:47-123 | a cleaned line always ends in a newline |
| OboHelper.CleanLineUntouched | biomedgraph/parser/helper/obo.py:60-73 | `[Term]`, `[Typedef]` and any line with neither a closing ']' nor an 'xref: ' come back stripped with one newline |
| OboHelper.CleanLineError | biomedgraph/parser/helper/obo.py:63-67 | the cleaner fails exactly on a stripped line ending in ']]' with a single '[', and then with an IndexError |
| OboHelper.CleanLineKeepsPrefix | biomedgraph/parser/helper/obo.py:73-115 | in the single-bracket branch the text before the last '[' is kept verbatim and the suffix becomes the rebuilt definition (`[]` when nothing survives) |
| OboHelper.CleanLineDoubleBracket | biomedgraph/parser/helper/obo.py:63-71 | in the ']]' branch the text before the second-to-last '[' is kept and the rest becomes one bracket around its string cleaning |
| OboHelper.CleanLineXrefField | biomedgraph/parser/helper/obo.py:116-121 | an `xref: v` line keeps its key and space, and its value is cleaned as a key-value xref only when it holds ':' |
| OboHelper.HeaderEndsAtFirstTerm | biomedgraph/parser/helper/obo.py:29-37 | no header line holds '[Term]', and the line after the header does |
| OboHelper.CleanAllShape | biomedgraph/parser/helper/obo.py:33-42 | cleaning a run of lines gives one output line per line, each the cleaning of its line, and fails exactly when some line fails |
| OboHelper.CleanedFileShape | biomedgraph/parser/helper/obo.py:29-42 | the header is copied unchanged, every line from the first '[Term]' on is replaced by its cleaning, one line out per line in, and the file fails exactly when a cleaned line fails |
| OboHelper.CleanOboFile | biomedgraph/parser/helper/obo.py:8-44 | the loop with its first_term_found flag produces exactly the cleaned file |
| OboHelper.CleanXrefDef | biomedgraph/parser/helper/obo.py:75-115 | the loop that collects cleaned xrefs and joins them yields the rebuilt definition of the bracketed suffix |
| OboHelper.RemoveSpaceFromXref | biomedgraph/parser/helper/obo.py:47-123 | the imperative cleaner returns exactly the line cleaning, error included |
| OboFoundry.OboFileName | biomedgraph/parser/obofoundry.py:285-288 | the chosen file is always an `.obo` file |
| OboFoundry.OboFileNameChoice | biomedgraph/parser/obofoundry.py:285-288 | `uberon` opens `basic.obo`; any other ontology opens `<name>.obo`, from which its name is recovered |
| OboFoundry.OboFileNameInjective | biomedgraph/parser/obofoundry.py:287-288 | two different unlisted ontologies never open the same file |
| OboFoundry.XrefLineKept | biomedgraph/parser/obofoundry.py:179 | without the helper's 'xref: ' branch, an `xref: v` line not ending in ']' is only stripped |
| OboFoundry.NoBracketLine | biomedgraph/parser/obofoundry.py:179-192 | any line whose stripped form does not end in ']' comes back stripped with one newline |
| OboFoundry.CleanOboFile | biomedgraph/parser/obofoundry.py:130-166 | this parser's loop produces exactly the cleaned file under its own line cleaner |
| OboFoundry.CleanedFoundryFile | biomedgraph/parser/obofoundry.py:151-164 | the header is copied, each later line is this parser's cleaning of it, and the file fails exactly when such a line fails |
| TaxTranslator.EnsemblItems | biomedgraph/parser/helper/taxtranslator.py:12-82 | the 69 entries of the Ensembl-name table, in display order |
| TaxTranslator.Initial | biomedgraph/parser/helper/taxtranslator.py:89-106 | the tables a new translator holds are well formed (each derived table consistent with the full names), or reading names.dmp raised |
| TaxTranslator.EnsemblNameValid | biomedgraph/parser/helper/taxtranslator.py:12-82 | the Ensembl-name display is a well-formed dict (no key listed twice in its order) |
| TaxTranslator.Normalise | biomedgraph/parser/helper/taxtranslator.py:151 | the normalised value is no longer than the input, has no surrounding whitespace and no upper-case letter |
| TaxTranslator.NormaliseLowerStrip | biomedgraph/parser/helper/taxtranslator.py:151 | normalising is lower-casing the stripped value |
| TaxTranslator.NormaliseIdempotent | biomedgraph/parser/helper/taxtranslator.py:151 | normalising twice is normalising once, so case and surrounding whitespace never change a translation |
| TaxTranslator.AbbrKey | biomedgraph/parser/helper/taxtranslator.py:125-130 | an abbreviated key exists exactly for names of two words |
| TaxTranslator.GenusKey | biomedgraph/parser/helper/taxtranslator.py:125-134 | a genus_species key exists exactly for names of two words |
| TaxTranslator.TaxLine | biomedgraph/parser/helper/taxtranslator.py:114-139 | one names.dmp line never touches the Ensembl table and keeps the tables consistent |
| TaxTranslator.TaxFields | biomedgraph/parser/helper/taxtranslator.py:118-139 | the split fields of one line never touch the Ensembl table and keep the tables consistent |
| TaxTranslator.EmptyTables | biomedgraph/parser/helper/taxtranslator.py:94-96 | the three NCBI tables start empty and consistent |
| TaxTranslator.Load | biomedgraph/parser/helper/taxtranslator.py:108-139 | loading names.dmp leaves the Ensembl table as it was and the tables consistent |
| TaxTranslator.LoadKeeps | biomedgraph/parser/helper/taxtranslator.py:113-139 | every state of the line loop, halted or not, keeps the Ensembl table and consistent tables |
| TaxTranslator.TaxLineRecords | biomedgraph/parser/helper/taxtranslator.py:116-139 | only 'scientific name' lines are recorded, under the lower-cased name; a two-word name also maps its abbreviation and its genus_species to the same taxid, and other names leave those tables alone |
| TaxTranslator.LoadDerived | biomedgraph/parser/helper/taxtranslator.py:123-139 | after loading, every abbreviated and every genus_species key comes from a full scientific name with the same taxid |
| TaxTranslator.FirstHitSound | biomedgraph/parser/helper/taxtranslator.py:158-162 | the direct match misses exactly when no dict holds the value; otherwise it answers from the first dict that holds it |
| TaxTranslator.Abbreviated | biomedgraph/parser/helper/taxtranslator.py:165-175 | an abbreviation answer is a taxid of the abbreviated-names table |
| TaxTranslator.ResolveFallback | biomedgraph/parser/helper/taxtranslator.py:165-175 | after the direct matches miss, a value resolves exactly when it has two words whose first, without '.', is one letter, and `<initial> <second>` is an abbreviated name |
| TaxTranslator.ResolveFromTables | biomedgraph/parser/helper/taxtranslator.py:153-175 | every answer comes from one of the four direct dicts or from the abbreviated-names table |
| TaxTranslator.Translator.constructor | biomedgraph/parser/helper/taxtranslator.py:89-106 | a new translator holds the Ensembl table, empty NCBI tables and an empty cache |
| TaxTranslator.Translator.GetNcbiTaxData | biomedgraph/parser/helper/taxtranslator.py:108-139 | the loop over names.dmp fills the three tables exactly as the loading function does, or raises its error |
| TaxTranslator.Translator.RecordName | biomedgraph/parser/helper/taxtranslator.py:118-139 | one line's updates to the three tables are those of the line function |
| TaxTranslator.Translator.Create | biomedgraph/parser/helper/taxtranslator.py:89-106 | creating a translator yields the initial tables with an empty, sound cache, or the loading error |
| TaxTranslator.Translator.Translate | biomedgraph/parser/helper/taxtranslator.py:141-175 | a cached value is answered from the cache, which stays unchanged; otherwise the answer is the lookup over the tables, stored only when found; a sound cache stays sound, so every answer equals the uncached lookup |
| TaxTranslator.Translator.Lookup | biomedgraph/parser/helper/taxtranslator.py:157-175 | the uncached loops over the dicts and the abbreviation fallback compute the lookup over the tables |
| TaxTranslator.Translator.EnsemblNameSound | biomedgraph/parser/helper/taxtranslator.py:190-203 | an Ensembl name found for a taxid maps back to it, and None comes back exactly when no Ensembl name has that taxid |
| TaxTranslator.Translator.GenusSpeciesSound | biomedgraph/parser/helper/taxtranslator.py:178-188 | a genus_species found for a taxid maps back to it, and None comes back exactly when none has that taxid |
| PyDict.Put | biomedgraph/parser/helper/taxtranslator.py:130-139 | assigning a key sets its value, keeps the position of an existing key, appends a new key and keeps the dict well formed |
| PyDict.FromItemsDistinct | biomedgraph/parser/helper/taxtranslator.py:12-82 | a dict display with distinct keys keeps their order and holds every item |
| PyDict.Flip | biomedgraph/parser/helper/taxtranslator.py:206-207 | flipping a dict gives a well-formed dict |
| PyDict.FlipSound | biomedgraph/parser/helper/taxtranslator.py:198-207 | the flipped keys are exactly the values, and each maps back to a key holding it |
| PyDict.FlipInjective | biomedgraph/parser/helper/taxtranslator.py:206-207 | flipping an injective dict keeps its order and maps each value to its own key, and the result is injective |
| PyDict.FlipFlip | biomedgraph/parser/helper/taxtranslator.py:206-207 | for an injective dict, flipping twice gives the dict back |
| NcbiHomoloGene.AddGene | biomedgraph/parser/ncbi_homologene.py:41-55 | adding a gene to the group keeps every earlier gene, adds this one and nothing else, and never repeats a gene (the group is a set) |
| NcbiHomoloGene.Pairs | biomedgraph/parser/ncbi_homologene.py:60-63 | one HOMOLOG with empty properties per pair of the group's genes, in combinations order |
| NcbiHomoloGene.PairsCount | biomedgraph/parser/ncbi_homologene.py:60-63 | a group of n genes yields exactly n(n-1)/2 relationships |
| NcbiHomoloGene.PairsCover | biomedgraph/parser/ncbi_homologene.py:60 | every pair of two genes of the group, in group order, is emitted |
| NcbiHomoloGene.PairsOrigin | biomedgraph/parser/ncbi_homologene.py:60 | every emitted relationship joins an earlier gene of the group to a later one |
| NcbiHomoloGene.PairsOfGroup | biomedgraph/parser/ncbi_homologene.py:41-60 | a group without repeats yields no self-pair |
| NcbiHomoloGene.SameGroupEmitsNothing | biomedgraph/parser/ncbi_homologene.py:50-55 | a line of the current group (or the first line) emits nothing and only adds its gene to the group, so the last group of a file is never flushed |
| NcbiHomoloGene.NewGroupFlushes | biomedgraph/parser/ncbi_homologene.py:57-70 | a line with a new group id emits the pairs of the previous group and restarts the group with just its gene and its id, even for an id seen before |
| NcbiHomoloGene.StepKeepsInvariant | biomedgraph/parser/ncbi_homologene.py:43-70 | each line keeps the group free of repeats and every emitted HOMOLOG between two different genes |
| NcbiHomoloGene.HomologsInvariant | biomedgraph/parser/ncbi_homologene.py:34-70 | after any file the group has no repeats and no HOMOLOG is a self-pair |
| NcbiHomoloGene.ShortLineRaises | biomedgraph/parser/ncbi_homologene.py:46-48 | a line with fewer than three fields raises IndexError and leaves the log as it was |
| NcbiHomoloGene.NcbiHomoloGeneParser.constructor | biomedgraph/parser/ncbi_homologene.py:24-29 | a new parser has an empty HOMOLOG log |
| NcbiHomoloGene.NcbiHomoloGeneParser.EmitPairs | biomedgraph/parser/ncbi_homologene.py:60-63 | the combinations loop appends exactly the group's pairs to the log |
| NcbiHomoloGene.NcbiHomoloGeneParser.Line | biomedgraph/parser/ncbi_homologene.py:47-70 | one loop iteration updates the group id, the group and the log as the line step does |
| NcbiHomoloGene.NcbiHomoloGeneParser.Run | biomedgraph/parser/ncbi_homologene.py:34-70 | the run appends exactly the relationships of the group-run fold over the lines and raises what it raises |
| EnsemblParser.Attr | biomedgraph/parser/ensembl.py:59-77 | an attribute lookup succeeds exactly when the record has the key, with its value, and otherwise raises KeyError for that key |
| EnsemblParser.GeneNode | biomedgraph/parser/ensembl.py:61 | a Gene node's sid is its gene_id |
| EnsemblParser.IdNode | biomedgraph/parser/ensembl.py:70-79 | a Transcript or Protein node's sid is its id |
| EnsemblParser.EntityStepTracked | biomedgraph/parser/ensembl.py:56-104 | one record keeps every log free of repeated keys and in step with its check set |
| EnsemblParser.EntitiesDistinct | biomedgraph/parser/ensembl.py:50-104 | after the record loop there is at most one Gene, Transcript and Protein node per id, and at most one CODES per concatenated key |
| EnsemblParser.EntityStepFrom | biomedgraph/parser/ensembl.py:56-82 | one record adds only nodes that come from records of the file |
| EnsemblParser.EntitiesOrigin | biomedgraph/parser/ensembl.py:56-82 | every Gene node comes from a record with that gene_id and gene_name, every Transcript node only from a 'transcript' record and every Protein node only from a 'CDS' record |
| EnsemblParser.EntityStepGrows | biomedgraph/parser/ensembl.py:56-104 | a record only adds to the check sets and only appends to the Gene log |
| EnsemblParser.EntityStepChecks | biomedgraph/parser/ensembl.py:56-104 | a record that raises nothing leaves its gene_id, its transcript_id or protein_id, and the CODES key joining them, in the check sets |
| EnsemblParser.EntitiesCover | biomedgraph/parser/ensembl.py:50-104 | when no record raises, the gene_id of every record is a Gene node, the transcript_id of every 'transcript' record a Transcript node joined to its gene by CODES, and the protein_id of every 'CDS' record a Protein node joined to its transcript by CODES |
| EnsemblParser.FirstGeneNew | biomedgraph/parser/ensembl.py:59-60 | before the first record naming a gene_id, that gene_id is not in check_gene_ids |
| EnsemblParser.GeneStepAdds | biomedgraph/parser/ensembl.py:58-64 | a record whose gene_id is not yet checked and whose step raises nothing appends the Gene node with its gene_name |
| EnsemblParser.EntitiesFirstGene | biomedgraph/parser/ensembl.py:58-64 | when no record raises, the Gene node of a gene_id carries the gene_name of the first record naming it, and it is the only Gene node with that sid |
| EnsemblParser.EnsemblEntityParser.constructor | biomedgraph/parser/ensembl.py:22-34 | a new parser has five empty logs |
| EnsemblParser.EnsemblEntityParser.Run | biomedgraph/parser/ensembl.py:50-104 | the record loop leaves exactly the logs of the entity fold over the records, and raises what it raises |
| EnsemblParser.EnsemblEntityParser.Record | biomedgraph/parser/ensembl.py:57-104 | one iteration updates the logs and check sets as the record step does |
| EnsemblParser.EnsemblEntityParser.AddGene | biomedgraph/parser/ensembl.py:58-64 | the gene part of an iteration is the gene stage |
| EnsemblParser.EnsemblEntityParser.AddTranscript | biomedgraph/parser/ensembl.py:66-73 | the transcript part of an iteration is the transcript stage |
| EnsemblParser.EnsemblEntityParser.AddProtein | biomedgraph/parser/ensembl.py:75-82 | the protein part of an iteration is the protein stage |
| EnsemblParser.EnsemblEntityParser.AddGeneTranscript | biomedgraph/parser/ensembl.py:84-93 | the Gene-CODES-Transcript part is its stage, keyed by gene_id + transcript_id |
| EnsemblParser.EnsemblEntityParser.AddTranscriptProtein | biomedgraph/parser/ensembl.py:95-104 | the Transcript-CODES-Protein part is its stage, keyed by transcript_id + protein_id |
| EnsemblParser.LocusNodes | biomedgraph/parser/ensembl.py:136-144 | exactly one Locus node per record, in record order |
| EnsemblParser.LocusAttributesWin | biomedgraph/parser/ensembl.py:139-142 | a Locus node has the fixed fields and the record's attributes; an attribute overrides a fixed field of the same name, and the others (start, ref 'h38', ...) stay |
| EnsemblParser.EnsemblLocusParser.constructor | biomedgraph/parser/ensembl.py:112-122 | a new parser has an empty Locus log |
| EnsemblParser.EnsemblLocusParser.Run | biomedgraph/parser/ensembl.py:127-146 | the loop appends one Locus node per record, each the record's properties |
| EnsemblParser.SkipHeader | biomedgraph/parser/ensembl.py:218-219 | the first line of a mapping file is skipped, and an empty file has no rows |
| EnsemblParser.ParseRows | biomedgraph/parser/ensembl.py:220-223 | one parsed row per line, each the row parser's result |
| EnsemblParser.MappingPairsDistinct | biomedgraph/parser/ensembl.py:215-228 | no two mapping relationships join the same unordered pair of ids |
| EnsemblParser.ReversedPairIgnored | biomedgraph/parser/ensembl.py:225-228 | once (a, b) is added, a later (b, a) adds nothing |
| EnsemblParser.TranscriptMappingFiltered | biomedgraph/parser/ensembl.py:244-247 | every transcript mapping targets an xref whose second character is 'M' or 'R' |
| EnsemblParser.ProteinMappingTagged | biomedgraph/parser/ensembl.py:270-274 | every protein mapping carries the parser's taxid as its only property |
| EnsemblParser.MapRows | biomedgraph/parser/ensembl.py:215-276 | the line loop of a mapping file leaves exactly the relationships of the mapping fold, and raises what it raises |
| EnsemblParser.MapRowStep | biomedgraph/parser/ensembl.py:225-228 | one row adds its pair and its frozenset key only when the key is new |
| EnsemblParser.EnsemblMappingParser.constructor | biomedgraph/parser/ensembl.py:188-198 | a new parser has three empty mapping logs |
| EnsemblParser.EnsemblMappingParser.Run | biomedgraph/parser/ensembl.py:281-284 | gene, then transcript, then protein mappings: each file's log is its fold, and an error stops the later files untouched |
| RefseqParser.CatalogFieldsSpec | biomedgraph/parser/refseq.py:59-67 | a short row or another taxid yields nothing; a matching row raises exactly when its third field does not split into two at '.'; otherwise the entry is the accession and version that field is made of, with status and length from fields 5 and 6 |
| RefseqParser.CatalogNode | biomedgraph/parser/refseq.py:74-87 | a catalogue node's sid is its accession |
| RefseqParser.ApplyCatalogKeeps | biomedgraph/parser/refseq.py:58-88 | one catalogue row keeps the node invariant |
| RefseqParser.CatalogNodes | biomedgraph/parser/refseq.py:53-88 | each accession appears at most once per log; Transcript nodes have an NM/NR/XM/XR accession and Protein nodes an NP/XP one, all tagged with the taxid |
| RefseqParser.CatalogEntryAdded | biomedgraph/parser/refseq.py:71-88 | a new transcript accession adds one Transcript node, a new protein accession one Protein node, and any other prefix leaves everything unchanged |
| RefseqParser.ParseCatalog | biomedgraph/parser/refseq.py:58-67 | one parsed entry per catalogue line |
| RefseqParser.RefseqEntityParser.constructor | biomedgraph/parser/refseq.py:29-41 | a new parser has empty Transcript and Protein logs |
| RefseqParser.RefseqEntityParser.Run | biomedgraph/parser/refseq.py:46-88 | the line loop leaves exactly the logs of the catalogue fold, and raises what it raises |
| RefseqParser.RefseqEntityParser.Line | biomedgraph/parser/refseq.py:59-88 | one iteration updates the logs and check sets as the catalogue step does |
| RefseqParser.CodesFieldsSpec | biomedgraph/parser/refseq.py:138-145 | a row raises exactly when it has fewer than four fields; it is used exactly when its taxid matches, with the gene id and the transcript and protein ids stripped of their version |
| RefseqParser.CodesProps | biomedgraph/parser/refseq.py:152-163 | every CODES carries exactly the source and the taxid |
| RefseqParser.ParseCodes | biomedgraph/parser/refseq.py:137-145 | one parsed entry per line |
| RefseqParser.ApplyCodesKeeps | biomedgraph/parser/refseq.py:145-166 | one row keeps the CODES invariant |
| RefseqParser.CodesRowsUnversioned | biomedgraph/parser/refseq.py:142-143 | no parsed transcript or protein id carries a version |
| RefseqParser.CodesRelationships | biomedgraph/parser/refseq.py:133-166 | Gene-CODES-Transcript appears at most once per gene_id + transcript_id and Transcript-CODES-Protein at most once per transcript_id + protein_id; no id has a version, no protein is 'na', all carry source and taxid |
| RefseqParser.RefseqCodesParser.constructor | biomedgraph/parser/refseq.py:107-121 | a new parser has two empty CODES logs |
| RefseqParser.RefseqCodesParser.Run | biomedgraph/parser/refseq.py:126-166 | the line loop leaves exactly the logs of the CODES fold, and raises what it raises |
| RefseqParser.RefseqCodesParser.Line | biomedgraph/parser/refseq.py:138-166 | one iteration updates the logs and check sets as the CODES step does |
| NcbiGene.GeneInfoFile | biomedgraph/parser/ncbigene.py:7-43 | the file read is always a gene_info file, and a species file exactly for 9606 and 10090 |
| NcbiGene.HeaderFields | biomedgraph/parser/ncbigene.py:55-65 | the header is refused exactly when it starts with neither '#Format:' nor '#tax', with the AttributeError naming it |
| NcbiGene.FormatHeader | biomedgraph/parser/ncbigene.py:58-59 | a '#Format:' header gives the names between the ':' and the '(', split on whitespace |
| NcbiGene.TaxHeader | biomedgraph/parser/ncbigene.py:60-63 | a '#tax' header gives the line without '#', stripped and split on tabs |
| NcbiGene.ZipKeys | biomedgraph/parser/ncbigene.py:79-81 | the zip of header and fields has exactly the header names paired with a field, so it stops at the shorter of the two |
| NcbiGene.ZipLast | biomedgraph/parser/ncbigene.py:79-81 | a name gets the field of its last pairing |
| NcbiGene.GeneNodeProps | biomedgraph/parser/ncbigene.py:77-81 | a Gene node's sid is the GeneID unless a column is named 'sid', and every header name paired with a field is a property |
| NcbiGene.SymbolRef | biomedgraph/parser/ncbigene.py:98-117 | a symbol reference's sid is the symbol |
| NcbiGene.SynonymNode | biomedgraph/parser/ncbigene.py:105-107 | a synonym node's sid is the synonym |
| NcbiGene.SynonymMaps | biomedgraph/parser/ncbigene.py:115-118 | one MAPS per synonym, in order, with status 'synonym' |
| NcbiGene.TabRows | biomedgraph/parser/ncbigene.py:67-69 | one row of tab fields per line |
| NcbiGene.GeneInfoStepKeeps | biomedgraph/parser/ncbigene.py:69-118 | one row keeps the node invariant |
| NcbiGene.GeneInfoDistinct | biomedgraph/parser/ncbigene.py:50-118 | after parsing, no two GeneSymbol nodes share a symbol (primary and synonym share one check set) and none is '-'; unless a column is named 'sid', no two Gene nodes share a GeneID |
| NcbiGene.SymbolsKeepGenes | biomedgraph/parser/ncbigene.py:86-118 | the symbol part of a row adds no Gene node and no GeneID to check_ids |
| NcbiGene.GeneInfoStepFrom | biomedgraph/parser/ncbigene.py:72-84 | every GeneID in check_ids is the GeneID of a row of the taxid |
| NcbiGene.GeneInfoStepGrows | biomedgraph/parser/ncbigene.py:69-118 | a row only appends to the Gene log and only adds to check_ids |
| NcbiGene.FirstRowNew | biomedgraph/parser/ncbigene.py:75-76 | before the first row of the taxid with a GeneID, check_ids does not hold it |
| NcbiGene.GeneRowAdds | biomedgraph/parser/ncbigene.py:72-84 | a row of the taxid whose GeneID is not yet checked and whose step raises nothing appends its Gene node |
| NcbiGene.RowsFirstRow | biomedgraph/parser/ncbigene.py:67-84 | over the rows, the first row of the taxid with a GeneID leaves its Gene node in the log when no row raises |
| NcbiGene.GeneInfoFirstRow | biomedgraph/parser/ncbigene.py:72-84 | when no row raises, the first row of the taxid with a GeneID gives its Gene node, built from that row and the header; unless a column is named 'sid', that node's sid is the GeneID and no other Gene node has it |
| NcbiGene.GeneInfoCovers | biomedgraph/parser/ncbigene.py:67-84 | when no row raises and no column is named 'sid', the GeneID of every row of the taxid is the sid of a Gene node, the one built from the first row with that GeneID |
| NcbiGene.SynonymsCount | biomedgraph/parser/ncbigene.py:96-101 | the synonym loop adds one SYNONYM per synonym, '-' included, and no MAPS |
| NcbiGene.GeneInfoStepCounts | biomedgraph/parser/ncbigene.py:71-118 | a row of the taxid adds one SYNONYM per synonym and one MAPS more than that; any other row adds none |
| NcbiGene.GeneInfoCounts | biomedgraph/parser/ncbigene.py:67-118 | the SYNONYM and MAPS logs have exactly the total of those per-row counts, with no deduplication |
| NcbiGene.NcbiGeneParser.constructor | biomedgraph/parser/ncbigene.py:16-30 | a new parser has four empty logs |
| NcbiGene.NcbiGeneParser.ParseGeneInfo | biomedgraph/parser/ncbigene.py:48-118 | the header parsing and the row loop leave exactly the logs of the gene_info fold, and raise what it raises |
| NcbiGene.NcbiGeneParser.Row | biomedgraph/parser/ncbigene.py:69-118 | one iteration updates the logs and check sets as the row step does |
| NcbiGene.NcbiGeneParser.Synonyms | biomedgraph/parser/ncbigene.py:96-107 | the synonym loop is the synonym fold |
| NcbiGene.NcbiGeneParser.MapsForRow | biomedgraph/parser/ncbigene.py:109-118 | the MAPS log gains the primary MAPS and then one per synonym; the other logs are untouched |
| NcbiGene.ParseLegacy | biomedgraph/parser/ncbigene.py:149-156 | one parsed entry per line |
| NcbiGene.ApplyLegacyEntry | biomedgraph/parser/ncbigene.py:157-163 | a row of the taxid adds one legacy node with the discontinued id as sid, and a REPLACED_BY exactly when the new id is not '-' |
| NcbiGene.LegacyCount | biomedgraph/parser/ncbigene.py:146-159 | after the header, one legacy node per row of the taxid |
| NcbiGene.LegacyReplacedByCurrent | biomedgraph/parser/ncbigene.py:160-163 | no REPLACED_BY points to '-' |
| NcbiGene.NcbiLegacyGeneParser.constructor | biomedgraph/parser/ncbigene.py:129-136 | a new parser has empty logs |
| NcbiGene.NcbiLegacyGeneParser.Run | biomedgraph/parser/ncbigene.py:141-163 | the loop leaves exactly the logs of the legacy fold, and raises what it raises |
| NcbiGene.NcbiLegacyGeneParser.LegacyLine | biomedgraph/parser/ncbigene.py:157-163 | one row of the taxid updates the logs as the legacy step does |
| NcbiGene.ParseOrthologs | biomedgraph/parser/ncbigene.py:196-199 | one parsed pair per line, from its whitespace fields |
| NcbiGene.OrthologsCount | biomedgraph/parser/ncbigene.py:192-203 | after the header, exactly one ORTHOLOG per line, with no taxid filter |
| NcbiGene.OrthologEnds | biomedgraph/parser/ncbigene.py:197-203 | a line's ORTHOLOG runs from field 2 to field 5 with no properties |
| NcbiGene.NcbiGeneOrthologParser.constructor | biomedgraph/parser/ncbigene.py:168-180 | a new parser has an empty ORTHOLOG log |
| NcbiGene.NcbiGeneOrthologParser.Run | biomedgraph/parser/ncbigene.py:185-203 | the loop leaves exactly the log of the ortholog fold, and raises what it raises |
| Lncipedia.Get | biomedgraph/parser/lncipedia.py:51-56 | an attribute lookup succeeds exactly when the record has the key, with one of its values, and otherwise raises KeyError for that key |
| Lncipedia.IdNode | biomedgraph/parser/lncipedia.py:53-58 | a node's sid is its id |
| Lncipedia.PairRel | biomedgraph/parser/lncipedia.py:61-86 | a relationship is checked under the unordered pair of its two ids |
| Lncipedia.LncOnly | biomedgraph/parser/lncipedia.py:49 | the kept records are records of the file of kind 'lnc_RNA' |
| Lncipedia.OnlyLncRecords | biomedgraph/parser/lncipedia.py:48-49 | a run over the records equals the run over their 'lnc_RNA' records only: exon records emit nothing |
| Lncipedia.AddGeneMapsKeeps | biomedgraph/parser/lncipedia.py:67-76 | a gene alias keeps the invariant |
| Lncipedia.AddTranscriptMapsKeeps | biomedgraph/parser/lncipedia.py:78-86 | a transcript alias keeps the invariant |
| Lncipedia.AliasesKeep | biomedgraph/parser/lncipedia.py:67-86 | the alias loop keeps the invariant |
| Lncipedia.LncStepKeeps | biomedgraph/parser/lncipedia.py:48-86 | one record keeps the invariant |
| Lncipedia.LncipediaDistinct | biomedgraph/parser/lncipedia.py:46-86 | one shared check set holds exactly the keys of all logs; no id or pair is logged twice, in any role (a Transcript never reuses a Gene's id, CODES and MAPS never join the same pair); no MAPS is a self-loop or targets a versioned id |
| Lncipedia.LncStepChecks | biomedgraph/parser/lncipedia.py:51-65 | after an 'lnc_RNA' record its gene id, its transcript id and their pair are in the check set |
| Lncipedia.LncipediaCovers | biomedgraph/parser/lncipedia.py:48-65 | when nothing raises, the ids of every 'lnc_RNA' record are sids of nodes and some CODES or MAPS joins them |
| Lncipedia.CheckedIsLogged | biomedgraph/parser/lncipedia.py:46-86 | every key in the check set is the key of a logged node or relationship |
| Lncipedia.LncipediaParser.constructor | biomedgraph/parser/lncipedia.py:24-31 | a new parser has five empty logs |
| Lncipedia.LncipediaParser.Run | biomedgraph/parser/lncipedia.py:36-86 | the record loop leaves exactly the logs of the record fold, and raises what it raises |
| Lncipedia.LncipediaParser.Record | biomedgraph/parser/lncipedia.py:49-86 | one iteration updates the logs and the check set as the record step does |
| Lncipedia.LncipediaParser.AliasLoop | biomedgraph/parser/lncipedia.py:67-86 | the loop over the attributes is the alias fold |
| Uniprot.OsName | biomedgraph/parser/uniprot.py:8-9 | only 9606 (Human) and 10090 (Mouse) are supported; any other taxid raises KeyError |
| Uniprot.DbRefs | biomedgraph/parser/uniprot.py:110-139 | the mappings of one database are exactly the DR entries of that database |
| Uniprot.RecName | biomedgraph/parser/uniprot.py:83 | the name is read exactly when the part of DE before the first ';' holds 'Full=', and otherwise IndexError is raised; the name holds no ';' |
| Uniprot.PrimaryNode | biomedgraph/parser/uniprot.py:85-86 | the primary node's sid is the primary accession |
| Uniprot.SecondaryNode | biomedgraph/parser/uniprot.py:94-96 | a secondary node's sid is its accession |
| Uniprot.PrimaryAsWrittenMatchesNoProtein | biomedgraph/parser/uniprot.py:101-103 | as written, the end of PRIMARY (the whole secondary list) is the sid of no Protein node |
| Uniprot.SecondaryAsWrittenAdds | biomedgraph/parser/uniprot.py:99-103 | as written, a secondary accession whose pair is not yet checked appends the PRIMARY ending at the whole list and checks its pair |
| Uniprot.SecondariesAsWritten | biomedgraph/parser/uniprot.py:92-104 | as written, the secondary loop over distinct, unchecked accessions appends one PRIMARY per accession, all the same relationship ending at the whole list, and checks exactly their pairs |
| Uniprot.PrimaryAsWrittenExample | biomedgraph/parser/uniprot.py:92-104 | as written, the record with primary P1 and secondaries Q1 and Q2 adds two PRIMARY relationships that are the same one, ending at neither Q1 nor Q2 |
| Uniprot.PrimaryRel | biomedgraph/parser/uniprot.py:99-104 | PRIMARY runs from the primary accession to one secondary accession, keyed by their unordered pair |
| Uniprot.RecordStepKeeps | biomedgraph/parser/uniprot.py:72-159 | one record keeps the invariant |
| Uniprot.KnowledgebaseDistinct | biomedgraph/parser/uniprot.py:61-159 | no accession becomes a Protein node twice, no pair is joined by PRIMARY twice, no CODES key is used twice, and each MAPS recorded a new key |
| Uniprot.RefseqIdCovers | biomedgraph/parser/uniprot.py:113-136 | a RefSeq id loses its version; an M/R id codes every accession, a P id maps every accession, any other id changes nothing |
| Uniprot.EnsemblRefCovers | biomedgraph/parser/uniprot.py:140-159 | an Ensembl mapping codes every accession from its transcript and maps every accession to its protein |
| Uniprot.RecordCovers | biomedgraph/parser/uniprot.py:74-104 | a record of the organism that does not raise has its primary and secondary accessions as nodes, each secondary joined to the primary by PRIMARY |
| Uniprot.SecondariesCover | biomedgraph/parser/uniprot.py:92-104 | the secondary loop makes every secondary a node joined to the primary |
| Uniprot.RefseqRefSame | biomedgraph/parser/uniprot.py:110-136 | RefSeq mappings add no nodes and no PRIMARY |
| Uniprot.EnsemblRefSame | biomedgraph/parser/uniprot.py:139-159 | Ensembl mappings add no nodes and no PRIMARY |
| Uniprot.RoleIn | biomedgraph/parser/uniprot.py:75-97 | the node an accession's role in one record of the species gives has that accession as sid, and exists exactly for an accession the record lists |
| Uniprot.FirstRole | biomedgraph/parser/uniprot.py:72-97 | the first role's node, across records in order, has the accession as sid |
| Uniprot.FirstRoleNone | biomedgraph/parser/uniprot.py:72-97 | an accession no record of the species lists has no first role |
| Uniprot.FirstRoleAt | biomedgraph/parser/uniprot.py:72-97 | the first role is the role in the first record of the species that lists the accession |
| Uniprot.SecondaryRoleWins | biomedgraph/parser/uniprot.py:88-97 | an accession met first as a secondary keeps the secondary node; a later primary role adds nothing |
| Uniprot.SecondariesRoles | biomedgraph/parser/uniprot.py:92-97 | the secondary loop adds the secondary node of each accession it newly checks and no other node, keeping the earlier log as a prefix |
| Uniprot.RecordRoles | biomedgraph/parser/uniprot.py:75-97 | one record: an unchecked primary appends its primary node, an unchecked secondary its secondary node, a checked one nothing; the log only grows at its end |
| Uniprot.RecordRolesWith | biomedgraph/parser/uniprot.py:88-97 | after the primary node and the secondary loop, the nodes are those of the first roles |
| Uniprot.FileRoles | biomedgraph/parser/uniprot.py:72-97 | a file's records keep every node the node of its accession's first role |
| Uniprot.FilesRoles | biomedgraph/parser/uniprot.py:64-97 | the files in order, from empty logs, keep every node that of its first role |
| Uniprot.KnowledgebaseFirstRole | biomedgraph/parser/uniprot.py:64-97 | when nothing raises, an accession's Protein node is its role in the first record of the species listing it, no other node has its sid, and an unlisted accession has none |
| Uniprot.UniprotKnowledgebaseParser.constructor | biomedgraph/parser/uniprot.py:30-46 | a new parser has four empty logs |
| Uniprot.UniprotKnowledgebaseParser.Run | biomedgraph/parser/uniprot.py:51-159 | the loops over the files and records leave exactly the logs of the knowledgebase fold, and raise what it raises |
| Uniprot.UniprotKnowledgebaseParser.KbFile | biomedgraph/parser/uniprot.py:67-72 | one file's record loop is the file step |
| Uniprot.UniprotKnowledgebaseParser.Record | biomedgraph/parser/uniprot.py:73-159 | one record updates the logs and check sets as the record step does |
| Uniprot.UniprotKnowledgebaseParser.Secondaries | biomedgraph/parser/uniprot.py:92-104 | the secondary loop is the secondary fold |
| Uniprot.UniprotKnowledgebaseParser.RefseqRefs | biomedgraph/parser/uniprot.py:111-136 | the loop over RefSeq mappings is their fold |
| Uniprot.UniprotKnowledgebaseParser.RefseqIds | biomedgraph/parser/uniprot.py:113-136 | the loop over one mapping's ids is its step |
| Uniprot.UniprotKnowledgebaseParser.RefseqCodes | biomedgraph/parser/uniprot.py:119-126 | the CODES loop over the accessions is its fold |
| Uniprot.UniprotKnowledgebaseParser.RefseqMaps | biomedgraph/parser/uniprot.py:129-136 | the MAPS loop over the accessions is its fold |
| Uniprot.UniprotKnowledgebaseParser.EnsemblRefs | biomedgraph/parser/uniprot.py:140-159 | the loop over Ensembl mappings is their fold |
| Uniprot.UniprotKnowledgebaseParser.EnsemblAccs | biomedgraph/parser/uniprot.py:144-159 | the loop over the accessions of one Ensembl mapping is its fold |
| Mesh.DescriptorNode | biomedgraph/parser/mesh.py:59-66 | a descriptor node has exactly its UI as sid and its name |
| Mesh.QualifierNode | biomedgraph/parser/mesh.py:83-88 | a qualifier node has exactly its UI as sid and its name |
| Mesh.ConceptNode | biomedgraph/parser/mesh.py:140-150 | a concept node has its UI as sid and its name, and a scope_note exactly when the concept has a ScopeNote |
| Mesh.TermNode | biomedgraph/parser/mesh.py:172-174 | a term node has exactly its UI as sid and its name |
| Mesh.AllowedRel | biomedgraph/parser/mesh.py:92-94 | ALLOWED runs from the descriptor to the qualifier, with source 'mesh' |
| Mesh.HasConceptRel | biomedgraph/parser/mesh.py:135-156 | Descriptor-HAS-Concept carries the PreferredConceptYN attribute |
| Mesh.RelatedRel | biomedgraph/parser/mesh.py:159-164 | RELATED runs from Concept1UI to Concept2UI, named by RelationName |
| Mesh.HasTermRel | biomedgraph/parser/mesh.py:169-180 | Concept-HAS-Term carries the ConceptPreferredTermYN attribute |
| Mesh.AllowedOfEach | biomedgraph/parser/mesh.py:82-94 | one ALLOWED per qualifier occurrence, in order |
| Mesh.HasConceptOfEach | biomedgraph/parser/mesh.py:134-156 | one Descriptor-HAS-Concept per concept occurrence, in order |
| Mesh.ConceptRelatedEach | biomedgraph/parser/mesh.py:159-164 | one RELATED per ConceptRelation, in order |
| Mesh.ConceptHasTermEach | biomedgraph/parser/mesh.py:167-180 | one Concept-HAS-Term per term occurrence, in order |
| Mesh.RelationsLog | biomedgraph/parser/mesh.py:159-164 | the relation loop appends exactly its RELATED and changes nothing else |
| Mesh.TermsLog | biomedgraph/parser/mesh.py:167-180 | the term loop appends exactly its HAS relationships and leaves the other logs alone |
| Mesh.ConceptStepLogs | biomedgraph/parser/mesh.py:134-180 | one concept appends one HAS, its RELATED and its term HAS, and no descriptor or ALLOWED |
| Mesh.DescriptorStepLogs | biomedgraph/parser/mesh.py:58-180 | one descriptor appends its node, its ALLOWED, its concept HAS, its RELATED and its term HAS |
| Mesh.ParseXmlLogs | biomedgraph/parser/mesh.py:58-180 | every relationship log is the concatenation of the per-descriptor pieces, with no deduplication |
| Mesh.DescriptorPerRecord | biomedgraph/parser/mesh.py:58-66 | exactly one descriptor node per descriptor record, in order |
| Mesh.DescriptorStepKeeps | biomedgraph/parser/mesh.py:58-180 | one descriptor keeps the invariant |
| Mesh.ParseXmlDistinct | biomedgraph/parser/mesh.py:54-180 | no qualifier, concept or term UI gets two nodes, and the check sets hold exactly the UIs of the nodes added |
| Mesh.ConceptStepCovers | biomedgraph/parser/mesh.py:134-176 | a concept's UI and all its term UIs end up checked, and the check sets only grow |
| Mesh.DescriptorStepCovers | biomedgraph/parser/mesh.py:82-176 | every qualifier, concept and term UI of a descriptor ends up checked, and the check sets only grow |
| Mesh.ParseXmlCovers | biomedgraph/parser/mesh.py:58-180 | every qualifier, concept and term UI of the file ends up checked, so each has its node |
| Mesh.MeshParser.constructor | biomedgraph/parser/mesh.py:14-30 | a new parser has eight empty logs |
| Mesh.MeshParser.ParseXmlRecords | biomedgraph/parser/mesh.py:54-180 | the descriptor loop leaves exactly the logs of the descriptor fold |
| Mesh.MeshParser.DescriptorRecord | biomedgraph/parser/mesh.py:59-180 | one descriptor iteration is the descriptor step |
| Mesh.MeshParser.Qualifiers | biomedgraph/parser/mesh.py:82-94 | the qualifier loop is the qualifier fold |
| Mesh.MeshParser.Concepts | biomedgraph/parser/mesh.py:134-180 | the concept loop is the concept fold |
| Mesh.MeshParser.ConceptEntry | biomedgraph/parser/mesh.py:135-180 | one concept iteration is the concept step |
| Mesh.MeshParser.Relations | biomedgraph/parser/mesh.py:159-164 | the relation loop is the relation fold |
| Mesh.MeshParser.Terms | biomedgraph/parser/mesh.py:167-180 | the term loop is the term fold |
| GeneOntology.GafFileName | biomedgraph/parser/geneontology.py:9-12 | goa_human for 9606, goa_mouse for 10090, goa_uniprot_all for any other taxid |
| GeneOntology.GafFields | biomedgraph/parser/geneontology.py:110-111 | a stripped line always has at least one tab field |
| GeneOntology.GafTaxid | biomedgraph/parser/geneontology.py:114-117 | a taxon is read exactly when column 13 exists and holds ':'; otherwise the line is skipped silently |
| GeneOntology.AssociationProps | biomedgraph/parser/geneontology.py:122-128 | evidence is always set; qualifier is present exactly when it is non-empty; nothing else |
| GeneOntology.GafAssociation | biomedgraph/parser/geneontology.py:108-132 | a line yields an ASSOCIATION exactly when it does not start with '!', its taxon is the reference taxid and its db is 'UniProtKB'; it runs from column 2 to the GO id in column 5 |
| GeneOntology.GafMatching | biomedgraph/parser/geneontology.py:108-132 | the matching lines are exactly the lines that yield an association |
| GeneOntology.GafAssociationsMatching | biomedgraph/parser/geneontology.py:108-132 | one association per matching line, in order, each that line's |
| GeneOntology.OtherTaxonAddsNothing | biomedgraph/parser/geneontology.py:119 | a line of another taxon adds nothing |
| GeneOntology.AssociationFields | biomedgraph/parser/geneontology.py:119-132 | an association joins columns 2 and 5, with evidence from column 7 and a qualifier exactly when column 4 is non-empty |
| GeneOntology.TaxonLine | biomedgraph/parser/geneontology.py:108-132 | a UniProtKB line with 'taxon:t' in column 13 yields an association exactly when t is the reference taxid |
| GeneOntology.GeneOntologyAssociationParser.constructor | biomedgraph/parser/geneontology.py:80-89 | a new parser has an empty ASSOCIATION log |
| GeneOntology.GeneOntologyAssociationParser.Run | biomedgraph/parser/geneontology.py:94-103 | run parses the GAF file chosen for the taxid |
| GeneOntology.GeneOntologyAssociationParser.ParseGoaUniprotGafFile | biomedgraph/parser/geneontology.py:105-132 | the line loop appends exactly the associations of the lines |
| SwissLipids.SafeName | biomedgraph/parser/swisslipids.py:81-84 | safe_string keeps the length, removes every one of ' [ ] ( ) * /' and leaves every other character where it was |
| SwissLipids.SafeNameIdempotent | biomedgraph/parser/swisslipids.py:81-84 | making a name safe twice is the same as once |
| SwissLipids.SafeString | biomedgraph/parser/swisslipids.py:81-84 | the replace loop computes the safe name |
| SwissLipids.SafeHeader | biomedgraph/parser/swisslipids.py:86 | the safe header is the header with each name made safe, position by position |
| SwissLipids.SwissLipidsParser.HeaderNames | biomedgraph/parser/swisslipids.py:86 | the comprehension loop yields the safe header |
| SwissLipids.TabFields | biomedgraph/parser/swisslipids.py:95 | a stripped, tab-split line always has a first field |
| SwissLipids.Stripped | biomedgraph/parser/swisslipids.py:103-104 | each field is stripped, position by position |
| SwissLipids.LipidProps | biomedgraph/parser/swisslipids.py:99-106 | the node props raise IndexError exactly when a non-blank field lies beyond the header |
| SwissLipids.LipidPropsKeys | biomedgraph/parser/swisslipids.py:99-106 | the node's keys are 'sid' and the safe names of the non-blank fields |
| SwissLipids.LipidPropsLast | biomedgraph/parser/swisslipids.py:103-106 | a safe name holds the value of the last non-blank field under it |
| SwissLipids.LipidPropsSid | biomedgraph/parser/swisslipids.py:99-106 | 'sid' keeps the first field unless a non-blank column's safe name is 'sid' |
| SwissLipids.LipidPropsNext | biomedgraph/parser/swisslipids.py:103-106 | one more field: blank adds nothing, beyond the header raises, otherwise sets its safe name |
| SwissLipids.LipidPropsErr | biomedgraph/parser/swisslipids.py:103-106 | once the props raise, later fields do not change the outcome |
| SwissLipids.SwissLipidsParser.NodeProps | biomedgraph/parser/swisslipids.py:99-106 | the property loop raises exactly when the props raise, and otherwise yields them |
| SwissLipids.ClassEntries | biomedgraph/parser/swisslipids.py:111-113 | the class column gives at least one entry, and a blank column the single entry '' |
| SwissLipids.ClassRelsEach | biomedgraph/parser/swisslipids.py:111-116 | one FROM_LIPID_CLASS per class entry, in order, with source 'swisslipids'; a blank column still gives one to '' |
| SwissLipids.ComponentEntries | biomedgraph/parser/swisslipids.py:125 | the component column gives at least one entry |
| SwissLipids.ComponentRels | biomedgraph/parser/swisslipids.py:127-135 | a component gives a relationship exactly when its stripped text contains a space |
| SwissLipids.ComponentSkipped | biomedgraph/parser/swisslipids.py:127-135 | without a space the ValueError is swallowed; with one the sid is the text before the first space and the type the rest |
| SwissLipids.DataRows | biomedgraph/parser/swisslipids.py:94-95 | one field list per data line, in order |
| SwissLipids.LipidLine | biomedgraph/parser/swisslipids.py:94-135 | a line that does not raise has at least 8 fields and adds its node, its class relationships, one HAS_PARENT to the stripped parent column and its components |
| SwissLipids.LipidsPerLine | biomedgraph/parser/swisslipids.py:90-135 | without a raise, every line after the header adds one node and one HAS_PARENT |
| SwissLipids.SwissLipidsParser.constructor | biomedgraph/parser/swisslipids.py:12-21 | the four sets start empty |
| SwissLipids.SwissLipidsParser.GetLipidsFromLines | biomedgraph/parser/swisslipids.py:73-135 | get_lipids leaves the sets, and any exception, as the specification fold over the lines gives |
| SwissLipids.SwissLipidsParser.DataLines | biomedgraph/parser/swisslipids.py:90-135 | the line loop is the fold of the line step over the data rows, stopping at the first raise |
| SwissLipids.SwissLipidsParser.Line | biomedgraph/parser/swisslipids.py:95-135 | one line changes the sets as the line step says |
| SwissLipids.SwissLipidsParser.Relationships | biomedgraph/parser/swisslipids.py:110-135 | the relationship part of a line: an IndexError on a short line, otherwise class, parent and component relationships |
| SwissLipids.SwissLipidsParser.Parent | biomedgraph/parser/swisslipids.py:118-121 | HAS_PARENT needs column 7, raising IndexError before anything else is added |
| SwissLipids.SwissLipidsParser.Components | biomedgraph/parser/swisslipids.py:123-135 | the component part needs column 8, raising IndexError otherwise |
| SwissLipids.SwissLipidsParser.ClassLoop | biomedgraph/parser/swisslipids.py:111-116 | the class loop appends the class relationships and nothing else |
| SwissLipids.SwissLipidsParser.ComponentLoop | biomedgraph/parser/swisslipids.py:125-135 | the component loop appends the component relationships and nothing else |
| SwissLipids.SwissLipidsParser.ComponentStep | biomedgraph/parser/swisslipids.py:127-135 | one component appends at most its one relationship |
| BigWordList.Range | biomedgraph/parser/big_word_list.py:32 | range(lo, hi) holds hi - lo consecutive integers from lo |
| BigWordList.AddWord | biomedgraph/parser/big_word_list.py:38-42 | one line appends the file index to its word's list, or starts it and puts the word last in key order; other words are unchanged |
| BigWordList.AddWordValid | biomedgraph/parser/big_word_list.py:39-42 | adding a word keeps the key order duplicate-free and every list non-empty |
| BigWordList.RepeatSnoc | biomedgraph/parser/big_word_list.py:37-42 | one more occurrence adds one more copy of the index |
| BigWordList.Repeat | biomedgraph/parser/big_word_list.py:37-42 | n copies of the index |
| BigWordList.AddLinesGet | biomedgraph/parser/big_word_list.py:37-42 | a file adds its index to a word's list once per line equal to the word |
| BigWordList.AddLinesValid | biomedgraph/parser/big_word_list.py:37-42 | reading a file keeps the dict well formed |
| BigWordList.CollectGet | biomedgraph/parser/big_word_list.py:32-44 | a word's list is, file by file, its occurrences in each file; missing files add nothing |
| BigWordList.FlatSorted | biomedgraph/parser/big_word_list.py:32-44 | since the indices rise, a word's list only holds those indices, in non-decreasing order |
| BigWordList.WordList | biomedgraph/parser/big_word_list.py:29-44 | word_to_list is well formed and each list is non-decreasing with indices between 3 and 12 |
| BigWordList.WordPresent | biomedgraph/parser/big_word_list.py:29-44 | a word is a key exactly when some file has a line equal to it |
| BigWordList.MatchKey | biomedgraph/parser/big_word_list.py:49 | the property names are 'match' followed by the index |
| BigWordList.WordNode | biomedgraph/parser/big_word_list.py:47-49 | a Word node has value = the word and match<i> = True for each index of its list |
| BigWordList.WordNodeKeys | biomedgraph/parser/big_word_list.py:47-49 | a Word node has no other keys |
| BigWordList.Nodes | biomedgraph/parser/big_word_list.py:46-51 | one node per key, in key order |
| BigWordList.NodesNext | biomedgraph/parser/big_word_list.py:46-51 | the nodes grow one key at a time |
| BigWordList.NodesDistinct | biomedgraph/parser/big_word_list.py:46-51 | no two Word nodes share a value |
| BigWordList.NodesCover | biomedgraph/parser/big_word_list.py:46-51 | every collected word has its node |
| BigWordList.BigWordListParser.constructor | biomedgraph/parser/big_word_list.py:11-17 | the Word set starts empty |
| BigWordList.BigWordListParser.Run | biomedgraph/parser/big_word_list.py:22-51 | run appends exactly the Word nodes of the collected dict |
| BigWordList.BigWordListParser.ReadFiles | biomedgraph/parser/big_word_list.py:29-44 | the file loop builds the dict the specification describes |
| BigWordList.BigWordListParser.ReadFile | biomedgraph/parser/big_word_list.py:36-42 | the line loop adds one file's lines to the dict |
| BigWordList.BigWordListParser.WordProps | biomedgraph/parser/big_word_list.py:47-49 | the props loop builds the Word node |
| Hgnc.HgncFields | biomedgraph/parser/hgnc.py:39 | a stripped, tab-split line always has a first field |
| Hgnc.NcbiId | biomedgraph/parser/hgnc.py:42 | the NCBI id is present exactly when the line has at least 19 fields (len(flds) > 18), and is then flds[18] |
| Hgnc.EnsemblId | biomedgraph/parser/hgnc.py:43 | the Ensembl id is present exactly when the line has at least 20 fields (len(flds) > 19), and is then flds[19] |
| Hgnc.StrValues | biomedgraph/parser/hgnc.py:45 | the fields as string values, position by position |
| Hgnc.GeneProps | biomedgraph/parser/hgnc.py:45-47 | the Gene node always has sid = field 1 and source = 'hgnc', whatever the columns say |
| Hgnc.GenePropsFields | biomedgraph/parser/hgnc.py:45-47 | the node's keys are sid, source and the column names that have a field; an unrepeated column name other than those holds its field |
| Hgnc.CharKeys | biomedgraph/parser/hgnc.py:36-45 | zip over the header string takes its characters one by one |
| Hgnc.GenePropsAsWritten | biomedgraph/parser/hgnc.py:36-47 | as written the node still has sid and source, but its other keys are header characters |
| Hgnc.GenePropsAsWrittenExample | biomedgraph/parser/hgnc.py:36-45 | with header 'hgnc_id\tsymbol' the keys are 'h' and 'g' and no column name is a key |
| Hgnc.HeaderNames | biomedgraph/parser/hgnc.py:36 | the header's column names, at least one |
| Hgnc.GeneMaps | biomedgraph/parser/hgnc.py:51-54 | one Gene-MAPS-Gene per present, non-empty NCBI and Ensembl id, NCBI first, from the sid with source 'hgnc' |
| Hgnc.SymbolProps | biomedgraph/parser/hgnc.py:57 | the GeneSymbol end is exactly the symbol and taxid '9606' |
| Hgnc.SymbolMaps | biomedgraph/parser/hgnc.py:56-57 | one Gene-MAPS-GeneSymbol exactly when the symbol is non-empty |
| Hgnc.DataRows | biomedgraph/parser/hgnc.py:38-39 | one field list per data line, in order |
| Hgnc.GenesPerLine | biomedgraph/parser/hgnc.py:35-49 | without a raise, every line after the header adds exactly its Gene node, in order |
| Hgnc.GeneMapsPerLine | biomedgraph/parser/hgnc.py:38-54 | without a raise, the Gene-MAPS-Gene set gains exactly each line's id relationships, in order |
| Hgnc.SymbolMapsPerLine | biomedgraph/parser/hgnc.py:38-57 | without a raise, the GeneSymbol set gains exactly each line's symbol relationship, in order |
| Hgnc.NoShortLine | biomedgraph/parser/hgnc.py:40-41 | a file read without a raise has no data line with fewer than two fields |
| Hgnc.HGNCParser.constructor | biomedgraph/parser/hgnc.py:8-22 | the three sets start empty |
| Hgnc.HGNCParser.ParseHgncCompleteFile | biomedgraph/parser/hgnc.py:34-57 | the file loop leaves the sets, and any exception, as the specification fold over the lines gives |
| Hgnc.HGNCParser.Line | biomedgraph/parser/hgnc.py:39-57 | one line changes the sets as the line step says, raising IndexError on a one-field line |
| Gtex.TabSplit | biomedgraph/parser/gtex.py:111-115 | a tab-split line always has a first field |
| Gtex.NameProps | biomedgraph/parser/gtex.py:124 | the tissue end is exactly its name |
| Gtex.LineRels | biomedgraph/parser/gtex.py:116-125 | one EXPRESSED per data column from the third on, in order, from the versionless gene id to that column's header name; as many as columns when the header is long enough |
| Gtex.LineRelsNext | biomedgraph/parser/gtex.py:121-125 | each column adds its one relationship |
| Gtex.LineRelsBeyond | biomedgraph/parser/gtex.py:121-122 | a column beyond the header raises IndexError, so nothing after it is added |
| Gtex.DataRows | biomedgraph/parser/gtex.py:114-115 | one field list per data line, in order |
| Gtex.DataRunLog | biomedgraph/parser/gtex.py:105-125 | without a raise the file has a header after two skipped lines and the set gains exactly each data line's relationships |
| Gtex.DataRunWithinHeader | biomedgraph/parser/gtex.py:105-125 | without a raise every data line gets one relationship per column after the first two |
| Gtex.GtexDataParser.constructor | biomedgraph/parser/gtex.py:83-95 | the EXPRESSED set starts empty |
| Gtex.GtexDataParser.Run | biomedgraph/parser/gtex.py:100-125 | run leaves the set, and any exception, as the specification fold gives |
| Gtex.GtexDataParser.Line | biomedgraph/parser/gtex.py:115-125 | one line changes the set as the line step says |
| Gtex.FirstMissing | biomedgraph/parser/gtex.py:45-67 | the first column the row lacks, none exactly when it has them all |
| Gtex.MissingColumn | biomedgraph/parser/gtex.py:45-67 | a row is read without AttributeError exactly when it has SAMPID, SMTS, SMTSD and every prop column |
| Gtex.SampleProps | biomedgraph/parser/gtex.py:49-67 | the sample node has exactly sid and the listed columns, each holding the row's value |
| Gtex.MetaRow | biomedgraph/parser/gtex.py:44-77 | a row raises exactly when it lacks a read column; otherwise it adds its sample, both MEASURES and the tissue-PARENT-detailed tissue relationship |
| Gtex.MetaPerRow | biomedgraph/parser/gtex.py:44-77 | without a raise every row adds one sample, two MEASURES and one PARENT |
| Gtex.GtexMetadataParser.constructor | biomedgraph/parser/gtex.py:13-31 | the six sets start empty |
| Gtex.GtexMetadataParser.Run | biomedgraph/parser/gtex.py:36-77 | run is the row loop over the columns the source lists |
| Gtex.GtexMetadataParser.Rows | biomedgraph/parser/gtex.py:44-77 | the row loop leaves the sets, and any exception, as the specification fold gives |
| Gtex.GtexMetadataParser.Row | biomedgraph/parser/gtex.py:45-77 | one row changes the sets as the row step says |
| Reactome.ReactomeFields | biomedgraph/parser/reactome.py:56 | a stripped, tab-split line always has a first field |
| Reactome.Rows | biomedgraph/parser/reactome.py:55-56 | one field list per line, in order |
| Reactome.TaxidStr | biomedgraph/parser/reactome.py:71 | str(translate(org)): the resolved taxid, or 'None' for an organism the tables do not know |
| Reactome.Translated | biomedgraph/parser/reactome.py:31-71 | a translation fails exactly when building the translator fails, with its error |
| Reactome.UnknownOrganism | biomedgraph/parser/helper/taxtranslator.py:141-176 | an unknown organism translates to the string 'None' |
| Reactome.KnownOrganism | biomedgraph/parser/helper/taxtranslator.py:141-176 | a known organism translates to its taxid |
| Reactome.ParsePathRow | biomedgraph/parser/reactome.py:67-70 | a pathway line is short exactly when it has fewer than three fields, and otherwise gives sid, name and organism |
| Reactome.PathRows | biomedgraph/parser/reactome.py:66-70 | one pathway row per line, in order |
| Reactome.PathwayNode | biomedgraph/parser/reactome.py:73-76 | a Pathway node has exactly taxid, sid, name, org and source, with the line's values |
| Reactome.ChildPerLine | biomedgraph/parser/reactome.py:54-60 | without a raise, run_pathway_child adds one CHILD per line, from column 1 to column 2, with the datasource name as source |
| Reactome.PathwaysPerLine | biomedgraph/parser/reactome.py:65-76 | without a raise, run_pathways adds one Pathway per line, in order, with the organism's translated taxid |
| Reactome.PathwaysNeedTranslator | biomedgraph/parser/reactome.py:31-71 | a non-empty pathway file is read without a raise only when the translator could be built |
| Reactome.PathwayParserOrder | biomedgraph/parser/reactome.py:45-48 | run reads the pathways first and then appends exactly the CHILD relationships of the relation file |
| Reactome.ReactomePathwayParser.constructor | biomedgraph/parser/reactome.py:12-29 | both sets start empty and no translator is built yet |
| Reactome.ReactomePathwayParser.TranslateOrg | biomedgraph/parser/reactome.py:31-71 | translating builds the translator at most once and keeps it |
| Reactome.ReactomePathwayParser.Taxtranslator | biomedgraph/parser/reactome.py:31-36 | the property returns the cached translator, or builds, stores and returns a fresh one, or fails without storing anything |
| Reactome.ReactomePathwayParser.Run | biomedgraph/parser/reactome.py:45-48 | run leaves the sets, and any exception, as the specification of both files gives |
| Reactome.ReactomePathwayParser.RunPathwayChild | biomedgraph/parser/reactome.py:50-60 | the relation loop is the specification fold over the relation lines |
| Reactome.ReactomePathwayParser.RunPathways | biomedgraph/parser/reactome.py:62-76 | the pathway loop is the specification fold over the pathway lines |
| Reactome.ReactomePathwayParser.PathwayLine | biomedgraph/parser/reactome.py:67-76 | one pathway line changes the node set as the step says |
| Reactome.ParseMapRow | biomedgraph/parser/reactome.py:143-147 | a mapping line is short exactly when it has fewer than six fields, and otherwise gives the id, the pathway, the evidence and the stripped organism |
| Reactome.MapRows | biomedgraph/parser/reactome.py:142-147 | one mapping row per line, in order |
| Reactome.MappingFileLog | biomedgraph/parser/reactome.py:141-154 | without an error, a mapping file adds the MEMBER of each row in the reference taxon, in order |
| Reactome.MappingOrder | biomedgraph/parser/reactome.py:133-135 | run adds the Ensembl file's MEMBERs and then the NCBI file's |
| Reactome.MappingNoShortRow | biomedgraph/parser/reactome.py:143-147 | a file read without a raise has no line with fewer than six fields |
| Reactome.NormaliseStrip | biomedgraph/parser/reactome.py:147 | stripping the organism first does not change its lookup |
| Reactome.MemberTaxon | biomedgraph/parser/reactome.py:143-154 | a line gives a MEMBER exactly when it has six fields and its organism resolves to the reference taxid |
| Reactome.TaxOfStrip | biomedgraph/parser/reactome.py:147-149 | stripping the organism does not change its taxid |
| Reactome.TaxOfIs | biomedgraph/parser/reactome.py:149-151 | the taxid matches a real taxid exactly when the organism resolves to it |
| Reactome.MemberFields | biomedgraph/parser/reactome.py:152-154 | a MEMBER joins column 1 to column 2, with source 'reactome' and the evidence code |
| Reactome.ReactomeMappingParser.constructor | biomedgraph/parser/reactome.py:100-117 | the MEMBER set starts empty and no translator is built yet |
| Reactome.ReactomeMappingParser.TranslateOrg | biomedgraph/parser/reactome.py:122-149 | translating builds the translator at most once and keeps it |
| Reactome.ReactomeMappingParser.Taxtranslator | biomedgraph/parser/reactome.py:122-127 | the property returns the cached translator, or builds, stores and returns a fresh one, or fails without storing anything |
| Reactome.ReactomeMappingParser.Run | biomedgraph/parser/reactome.py:133-135 | run leaves the set, and any exception, as the specification of both mapping files gives |
| Reactome.ReactomeMappingParser.RunMapping | biomedgraph/parser/reactome.py:137-173 | each mapping loop is the specification fold over its lines |
| Reactome.ReactomeMappingParser.MappingLine | biomedgraph/parser/reactome.py:143-154 | one mapping line changes the set as the step says |
| Mirbase.MatureNode | biomedgraph/parser/mirbase.py:107 | a Mirna node has exactly sid = the accession, name and evidence |
| Mirbase.MatureNodePerRow | biomedgraph/parser/mirbase.py:105-107 | one Mirna node per mature row, in order |
| Mirbase.CommentText | biomedgraph/parser/mirbase.py:141 | str(comment): the comment, or 'nan' for an empty cell |
| Mirbase.PreNode | biomedgraph/parser/mirbase.py:139-143 | a PrecursorMirna node has exactly sid, name, desc, sequence, the species' taxid and the comment text |
| Mirbase.PreNodesJoin | biomedgraph/parser/mirbase.py:135-143 | the inner merge gives a node exactly for each precursor whose organism key is in the species table |
| Mirbase.PreNodeUnlisted | biomedgraph/parser/mirbase.py:135-136 | a precursor of an unlisted species adds no node |
| Mirbase.PreKeys | biomedgraph/parser/mirbase.py:166-167 | one (primary key, accession) pair per precursor row, in order |
| Mirbase.MatureKeys | biomedgraph/parser/mirbase.py:179-180 | one (primary key, accession) pair per mature row, in order |
| Mirbase.KeyMapHas | biomedgraph/parser/mirbase.py:164-180 | every primary key of the table is a key of its dictionary |
| Mirbase.KeyMapLast | biomedgraph/parser/mirbase.py:164-180 | a key maps to the accession of the last row that has it |
| Mirbase.KeyMapLacks | biomedgraph/parser/mirbase.py:164-180 | a key no row has is not in the dictionary |
| Mirbase.KeyIn | biomedgraph/parser/mirbase.py:164-180 | a key is in the dictionary exactly when some row has it |
| Mirbase.MirbaseParser.KeyAccessions | biomedgraph/parser/mirbase.py:164-180 | the dictionary loop builds that dictionary |
| Mirbase.PreRel | biomedgraph/parser/mirbase.py:194-197 | a PRE runs from the precursor accession to the mature accession, with exactly the integer start and end |
| Mirbase.PreStepLogs | biomedgraph/parser/mirbase.py:190-197 | a mapping row that does not raise adds its one PRE |
| Mirbase.PreStepMarks | biomedgraph/parser/mirbase.py:190-197 | a mapping row that does not raise has both keys known |
| Mirbase.PreKnownAll | biomedgraph/parser/mirbase.py:190-197 | without a raise, every mapping row's keys were known |
| Mirbase.PrePerRow | biomedgraph/parser/mirbase.py:190-197 | without a raise, one PRE per mapping row, in order, between the accessions of its two keys |
| Mirbase.PrePieces | biomedgraph/parser/mirbase.py:190-197 | a row with known keys gives exactly its PRE |
| Mirbase.PreNoRaise | biomedgraph/parser/mirbase.py:190-197 | when all keys are known the loop does not raise |
| Mirbase.PreRaisesAtFirst | biomedgraph/parser/mirbase.py:190-197 | when the loop raises it is a KeyError at the first row with an unknown key, after the rows before it |
| Mirbase.PreRunAt | biomedgraph/parser/mirbase.py:190-197 | the first row with an unknown key stops the loop with its KeyError |
| Mirbase.RunNodesFirst | biomedgraph/parser/mirbase.py:23-25 | run adds the Mirna nodes and the PrecursorMirna nodes before the mapping |
| Mirbase.RunRaises | biomedgraph/parser/mirbase.py:190-192 | run raises exactly when some mapping row names a key missing from its table |
| Mirbase.KnownKeys | biomedgraph/parser/mirbase.py:191-192 | a mapping row is known exactly when its mature key and its precursor key are each the primary key of some row |
| Mirbase.MirbaseParser.constructor | biomedgraph/parser/mirbase.py:9-18 | the sets start empty |
| Mirbase.MirbaseParser.Run | biomedgraph/parser/mirbase.py:23-26 | run leaves the sets, and any exception, as the specification gives |
| Mirbase.MirbaseParser.GetMatureMirnas | biomedgraph/parser/mirbase.py:99-107 | the mature loop appends exactly the Mirna nodes |
| Mirbase.MirbaseParser.GetPreMirnas | biomedgraph/parser/mirbase.py:109-143 | the precursor loop appends exactly the joined PrecursorMirna nodes |
| Mirbase.MirbaseParser.GetPreMatureRelationship | biomedgraph/parser/mirbase.py:145-197 | the mapping loop is the specification fold over the mapping rows |
| Mirdb.MirPrefix | biomedgraph/parser/mirdb.py:5-32 | the prefix is 'hsa' for 9606 and 'mmu' for 10090; any other taxid raises KeyError |
| Mirdb.Rows | biomedgraph/parser/mirdb.py:35-36 | one whitespace-split field list per line, in order |
| Mirdb.TargetRel | biomedgraph/parser/mirdb.py:43-45 | a TARGETS runs from the miRNA name to the target sid, with the score's text as an opaque value and the datasource name |
| Mirdb.TargetStepLogs | biomedgraph/parser/mirdb.py:36-45 | a line that does not raise adds its relationship when the name has the prefix, and nothing otherwise |
| Mirdb.TargetsLog | biomedgraph/parser/mirdb.py:34-45 | without a raise, the set gains exactly the relationships of the prefixed lines, in order |
| Mirdb.TargetsComplete | biomedgraph/parser/mirdb.py:36-41 | a file read without a raise has a first field on every line and three fields on every prefixed line |
| Mirdb.TargetCount | biomedgraph/parser/mirdb.py:39-45 | one relationship per prefixed line |
| Mirdb.TargetsFromPrefixed | biomedgraph/parser/mirdb.py:39-45 | every relationship comes from a line whose name has the prefix |
| Mirdb.RunTargets | biomedgraph/parser/mirdb.py:26-45 | without a raise the taxid is 9606 or 10090, and the set holds one relationship per prefixed line, each from such a line with the datasource as source |
| Mirdb.MirdbParser.constructor | biomedgraph/parser/mirdb.py:11-21 | the TARGETS set starts empty |
| Mirdb.MirdbParser.Run | biomedgraph/parser/mirdb.py:26-45 | run leaves the set, and any exception, as the specification fold over the lines gives |
| Mirdb.MirdbParser.Line | biomedgraph/parser/mirdb.py:36-45 | one line changes the set as the step says |
| Releases.ReleaseDir | biomedgraph/datasources/ensembl.py:53-60 | the release directory is 'release-' followed by exactly the version |
| Releases.ReleaseDirSplit | biomedgraph/datasources/ensembl.py:53-76 | splitting a release directory on '-' gives 'release' and then the version's own pieces |
| Releases.ReleaseDirFields | biomedgraph/datasources/uniprot.py:48-55 | a version without '-' comes back as the second of exactly two pieces |
| PyPath.Join | biomedgraph/datasources/refseq.py:39-69 | posixpath.join: an absolute second part replaces the first, otherwise one '/' separates them |
| PyPath.Basename | biomedgraph/datasources/refseq.py:80-86 | the file name a download keeps is the path's last component, which contains no '/' |
| PyPath.JoinBasename | biomedgraph/datasources/refseq.py:80-86 | the last component of dir joined with a name is that name |
| PyPath.JoinJoin | biomedgraph/datasources/ensembl.py:249-272 | joining in several steps is joining once with '/' between the parts |
| EnsemblSource.ReleaseNames | biomedgraph/datasources/ensembl.py:71 | the release names are exactly the listed names that start with 'release-' |
| EnsemblSource.AllRemoteVersions | biomedgraph/datasources/ensembl.py:62-80 | the version loop yields the second '-' piece of each release name, skipping those without one |
| EnsemblSource.VersionsCount | biomedgraph/datasources/ensembl.py:71-80 | names that start with 'release-' always have a second piece, so none is skipped |
| EnsemblSource.VersionsOfDirs | biomedgraph/datasources/ensembl.py:53-80 | listing the release directories of versions without '-' gives those versions back, in order |
| EnsemblSource.Strain | biomedgraph/datasources/ensembl.py:206-209 | a missing or empty strain becomes 'reference', so the strain is never empty |
| EnsemblSource.SpeciesMaps | biomedgraph/datasources/ensembl.py:195-229 | every name kept in taxid_2_name is a key of name_2_taxid |
| EnsemblSource.SpeciesNames2Taxid | biomedgraph/datasources/ensembl.py:195-229 | the species loop and the duplicate removal compute the two dictionaries of the specification |
| EnsemblSource.CollectCounts | biomedgraph/datasources/ensembl.py:202-223 | a taxid or name is recorded exactly when a reference species with both fields has it, and marked duplicate exactly when two do |
| EnsemblSource.TaxidCountZero | biomedgraph/datasources/ensembl.py:202-223 | a taxid no species has is counted zero times |
| EnsemblSource.NameCountZero | biomedgraph/datasources/ensembl.py:202-223 | a name no species has is counted zero times |
| EnsemblSource.TaxidOnce | biomedgraph/datasources/ensembl.py:215-227 | a taxid stays in taxid_2_name exactly when one reference species has it |
| EnsemblSource.TaxidTwice | biomedgraph/datasources/ensembl.py:215-227 | a taxid of two reference species is removed |
| EnsemblSource.TaxidCountsBoth | biomedgraph/datasources/ensembl.py:215-216 | two species with one taxid count it twice |
| EnsemblSource.TaxidCountsOne | biomedgraph/datasources/ensembl.py:215-218 | a species with the taxid counts it at least once |
| EnsemblSource.FirstTaxidName | biomedgraph/datasources/ensembl.py:215-218 | before the removal a taxid maps to the name of its first reference species |
| EnsemblSource.FirstNameTaxid | biomedgraph/datasources/ensembl.py:220-223 | a name maps to the taxid of its first reference species; duplicate names are not removed |
| EnsemblSource.NameUnlisted | biomedgraph/datasources/ensembl.py:220-223 | a name no reference species has is not a key |
| EnsemblSource.CollectNamesKnown | biomedgraph/datasources/ensembl.py:214-223 | every recorded taxid's name was recorded too |
| EnsemblSource.Lookup | biomedgraph/datasources/ensembl.py:244-269 | a dictionary lookup yields the value exactly when the key is present, and raises KeyError otherwise |
| EnsemblSource.GtfFilePath | biomedgraph/datasources/ensembl.py:231-251 | the GTF path raises KeyError exactly for a taxid without a subdirectory |
| EnsemblSource.TsvFilePath | biomedgraph/datasources/ensembl.py:253-274 | the TSV path raises KeyError exactly for a taxid without a subdirectory |
| EnsemblSource.Fill | biomedgraph/datasources/ensembl.py:247-270 | replacing a placeholder that occurs once substitutes it and changes nothing else |
| EnsemblSource.JoinPath | biomedgraph/datasources/ensembl.py:249-272 | the four-part os.path.join is one join with '/' between kind, subdirectory and file name |
| EnsemblSource.Templates | biomedgraph/datasources/ensembl.py:14-34 | the two file templates of a supported taxid are its genome prefix, the version placeholder and the fixed tail |
| EnsemblSource.GtfFileName | biomedgraph/datasources/ensembl.py:246-247 | filling the GTF template puts the version where the placeholder was |
| EnsemblSource.GtfPath | biomedgraph/datasources/ensembl.py:231-251 | a supported taxid's GTF path is instance_dir/gtf/subdirectory/genome.version.chr_patch_hapl_scaff.gtf.gz |
| EnsemblSource.TsvFileName | biomedgraph/datasources/ensembl.py:269-270 | filling the TSV template puts the version and then the database where the placeholders were |
| EnsemblSource.TsvPath | biomedgraph/datasources/ensembl.py:253-274 | a supported taxid's TSV path is instance_dir/tsv/subdirectory/genome.version.database.tsv.gz |
| UniprotSource.FirstOfMonth | biomedgraph/datasources/uniprot.py:137 | date(year, month, 1) exists exactly for years 1 to 9999 and months 1 to 12 |
| UniprotSource.DateFromName | biomedgraph/datasources/uniprot.py:123-137 | a release name that parses gives the first day of a real month |
| UniprotSource.TwoDigits | biomedgraph/datasources/uniprot.py:26 | a month is written with digits only |
| UniprotSource.TwoDigitsValue | biomedgraph/datasources/uniprot.py:136-137 | int() reads a written month back |
| UniprotSource.DateRoundTrip | biomedgraph/datasources/uniprot.py:123-137 | a version 'year_month' and its release directory both parse back to the first of that month |
| UniprotSource.VersionFields | biomedgraph/datasources/uniprot.py:136 | a version splits on '_' into its year and its month and holds no '-' |
| UniprotSource.VersionUnprefixed | biomedgraph/datasources/uniprot.py:133-134 | a bare version is kept and a release directory loses exactly its 'release-' |
| UniprotSource.PrefixKept | biomedgraph/datasources/uniprot.py:133-137 | a 'release-' name with other than two '-' pieces keeps its prefix and fails to parse |
| UniprotSource.DownloadUrls | biomedgraph/datasources/uniprot.py:98-112 | two files are downloaded per division |
| UniprotSource.KnowledgebaseFiles | biomedgraph/datasources/uniprot.py:139-152 | the knowledgebase files raise KeyError exactly for a taxid without a division, and are otherwise two |
| UniprotSource.DivisionBasename | biomedgraph/datasources/uniprot.py:101-112 | a division URL keeps its file name as the downloaded name |
| UniprotSource.KnowledgebaseDownloaded | biomedgraph/datasources/uniprot.py:98-112 | the two files looked up for a taxid are exactly the two downloaded for its division |
| RefseqSource.CatalogNames | biomedgraph/datasources/refseq.py:43-45 | the catalog names are exactly the listed names containing 'RefSeq-release' |
| RefseqSource.CatalogVersion | biomedgraph/datasources/refseq.py:50 | reading a catalog name raises IndexError exactly when it has no '-' |
| RefseqSource.CatalogVersionOf | biomedgraph/datasources/refseq.py:50-79 | the catalog file of release n reads back as n |
| RefseqSource.CatalogFields | biomedgraph/datasources/refseq.py:50-79 | a catalog file name splits on '-' into two pieces, the second 'release' + version + '.catalog.gz' |
| RefseqSource.CatalogDigits | biomedgraph/datasources/refseq.py:50 | the number read from that second piece is the version |
| RefseqSource.Collected | biomedgraph/datasources/refseq.py:49-51 | the list comprehension succeeds only with every number, in order |
| RefseqSource.CollectedRaise | biomedgraph/datasources/refseq.py:49-51 | when it fails, it is with the error of some name |
| RefseqSource.CollectedOk | biomedgraph/datasources/refseq.py:49-51 | when every name reads, the comprehension succeeds |
| RefseqSource.VersionNumbers | biomedgraph/datasources/refseq.py:49-51 | one reading per catalog name, in set order |
| RefseqSource.AllRemoteVersions | biomedgraph/datasources/refseq.py:32-57 | the versions are one per distinct catalog name, in set order, and then the latest; a name that does not read fails the whole call |
| RefseqSource.DistinctCard | biomedgraph/datasources/refseq.py:43-45 | the set order lists each catalog name once |
| RefseqSource.ListingVersions | biomedgraph/datasources/refseq.py:32-57 | a listing of catalog files of known releases yields exactly those release numbers |
| RefseqSource.ReleasePath | biomedgraph/datasources/refseq.py:59-71 | the latest version is downloaded from the catalog directory and any other from its archive subdirectory |
| RefseqSource.DownloadUrls | biomedgraph/datasources/refseq.py:73-87 | two files are downloaded per version |
| RefseqSource.LookupMatchesDownload | biomedgraph/datasources/refseq.py:79-121 | the catalog and accession2geneid paths name exactly the files the download stores |
| RefseqSource.CatalogFileVersion | biomedgraph/datasources/refseq.py:89-104 | the catalog file of an instance reads back as its release number |

## Left out

- Network and downloads are not modelled: every `download*` body, `list_ftp_dir`, `get_single_file_ftp`, `latest_remote_version`, and the REST request and JSON decoding of the Ensembl species list. The listings, the decoded species list and the latest version are inputs.
- `DataSourceVersion.version_from_string` and `instance.get_file` belong to the pipeline framework. The model takes versions as strings and file contents as parameters.
- The file readers are left out: `GffReader`, `EMBLReaderUniProt`, `ElementTree`, gzip and `pandas.read_csv`. Records, trees and table rows are datatypes holding the values those readers yield.
- The pronto-based `OboFoundryParser.parse_obo_file`, the ChEBI, HMDB and MirTarBase parsers, the dummy parsers and datasources, the experimental package, the CLI and the parser/datasource registries are outside the modelled core.
- graphio's merge semantics are not modelled: `merge_keys`, `add_unique`, `default_props`, `.unique` and writing to the database. A `NodeSet` or `RelationshipSet` is the append-only log of what the parser added, so `add_unique` in the GTEx metadata parser is an append.
- EnsemblParser.LocusNodes: the `uuid4()` property is the fixed opaque value `Opaque("uuid4")`. Randomness is not modelled.
- Mirdb.TargetRel: the score is kept as an opaque value holding the field's text, not a float. Which texts `float()` accepts is a parameter of the run.
- Mirbase.MirbaseParser.Run: it covers the mature, precursor and precursor–mature steps. The transcript and gene steps (`get_pre_transcript_relationships`, `get_gene_pre_relationships`) are pandas left merges and are not modelled.
- Mirbase.PreNode: an empty comment cell is modelled as `'nan'`. Other NaN cells and pandas' type inference of the key columns are not modelled; primary keys are the text of their cell.
- Mirbase: the species table is a map from primary key to row, so the model assumes its index is unique.
- Gtex.GtexMetadataParser.Run: the sample table is a sequence of rows from column name to value. Reading it with pandas, including the `utf-8-sig` decoding, is not modelled.
- Reactome.ReactomePathwayParser.Run: the translator's `names.dmp` is a constructor parameter, and the datasource name is a string parameter.
- Uniprot.UniprotKnowledgebaseParser.Run: the run builds PRIMARY with the intended end, the secondary accession of the iteration (Uniprot.PrimaryRel), not the whole list of secondary accessions that biomedgraph/parser/uniprot.py:102 passes. The as-written loop is Uniprot.SecondariesAsWritten, described under Findings.
- Uniprot.UniprotKnowledgebaseParser.Record: its PRIMARY relationships end at the secondary accession, not at the whole list as written.
- Uniprot.UniprotKnowledgebaseParser.Secondaries: the loop appends Uniprot.PrimaryRel(primary, acc), not the relationship ending at the whole list as written.
- Hgnc.HGNCParser.ParseHgncCompleteFile: the Gene node properties zip the tab-separated column names of the header (Hgnc.HeaderNames), not the unsplit header line as biomedgraph/parser/hgnc.py:36-45 does. The as-written keys are Hgnc.GenePropsAsWritten, described under Findings.
- Hgnc.ParseFile: the same: the fold zips the split header names.
- TaxTranslator.Normalise: lower-casing covers ASCII letters only. Python's `str.lower()` also folds every other cased Unicode letter, so for names with non-ASCII capitals the model's keys differ.
- TaxTranslator.NormaliseLowerStrip: lower-casing is ASCII-only, as for Normalise.
- PyStr.Lower: lower-cases 'A' to 'Z' only. Python's `str.lower()` folds all cased Unicode letters. This affects TaxTranslator.Normalise, the names.dmp keys and every translate lookup.
- PyStr.ParseInt: accepts surrounding whitespace, an optional sign and ASCII digits only. Python's `int()` also accepts '_' between digits and Unicode decimal digits. This affects UniprotSource.DateFromName and RefseqSource.CatalogVersion.
- Uniprot.UniprotKnowledgebaseParser.Run: the MAPS check set uses two key shapes, accession+RefSeq id and Ensembl protein+accession. Its invariant therefore only ties the size of the check set to the size of the log, not each key to one entry.
- The iteration order of a Python `set` is an input: the `order` of the RefSeq catalog names. The HomoloGene group set iterates in insertion order, and pairs are formed in `itertools.combinations` order over it.
- The `patched=` keyword at biomedgraph/parser/ensembl.py:44-46 does not match `get_gtf_file_path` in biomedgraph/datasources/ensembl.py. The Ensembl entity model starts at the record loop.
- The undefined `allowed_names` at biomedgraph/datasources/ensembl.py:147 raises `NameError` in the download path. Downloads are not modelled, so neither is that path.
- EnsemblSource.TsvPath: the filled-in path is stated only for versions without the letter 'X'. A version containing 'X' could interact with the `XXDBXX` placeholder.
- OboHelper.CleanOboFile: `clean_obo_file` is modelled as lines to lines. Opening, reading and writing the files is not modelled.
- Logging and `print` calls are not modelled.
- The Gene Ontology unit tests are commented out and their GAF fixture is not part of this model. The expected counts of 25 human and 10 mouse associations are not stated.
- MeSH parser: `AttributeError` on an element missing from the XML is not modelled. The tree datatype always has the elements the parser reads, and optional ones (`ScopeNote`) are `Option`s.

## Findings

| source | as written | input that shows it | evidently intended | confidence | as-written member | corrected member |
|---|---|---|---|---|---|---|
| biomedgraph/parser/uniprot.py:101-103 | the PRIMARY relationship's end is `{'sid': secondary}`, the whole list of secondary accessions | a record with AC `P1; Q1; Q2;`: both PRIMARY relationships end at `['Q1', 'Q2']`, which is the sid of no Protein node | the end is `{'sid': secondary_acc}`, the secondary accession of the loop | not executed | Uniprot.PrimaryAsWrittenExample | Uniprot.PrimaryRel |
| biomedgraph/parser/hgnc.py:36-45 | `dict(zip(header, flds))` zips the unsplit header line, so the property keys are its single characters | header `hgnc_id\tsymbol` and fields `HGNC:5`, `A1BG` give the keys `h` and `g` | zip the tab-separated column names of the header with the fields | not executed | Hgnc.GenePropsAsWrittenExample | Hgnc.GeneProps |
