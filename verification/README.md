# simpledataset, modelled in Dafny

simpledataset handles image datasets described by a plain-text manifest.
Each manifest line is `image_path label_field`. The label field takes one of
three forms, one per dataset kind:

- **image classification**: a comma list of class ids (`3,7`);
- **object detection**: the path of a payload file with one line
  `class_id x_min y_min x_max y_max` per box;
- **visual relationship**: the path of a payload file with eleven integers
  per line (subject class and box, object class and box, predicate class).

Any path may be compound, `archive.zip@entry`, naming an entry inside a zip
archive. Class names live in `labels.txt`, one per line. When that file is
missing, the names `"0"` up to the largest class id are generated.

This project models the core of the library:

- the compound-path reader with its archive cache;
- kind detection from the manifest's first line;
- the three label codecs and the line-by-line loader;
- the class-id queries and the memoised label table;
- the dataset writer;
- the converter between dataset kinds (`TaskConverter`);
- the COCO, HICO-DET, Open Images (boxes and relationships) and Visual
  Genome readers and writers;
- the dataset transforms of the `concat`, `defrag`, `filter`, `map`,
  `summary` and `download` commands.

Every Python exception is an `Error` value in a `Result`. Only the
exception class is kept, not its message.

The environment is reduced to values:

- `Files.Disk` holds plain files by path and zip archives by path, each
  archive a map from entry name to contents.
- `Files.Decoder` gives the (width, height) the image library reports for
  an image's bytes.
- Things the model cannot compute are parameters: the md5 fingerprint of
  an image, the JPEG encoding of a crop, and Open Images' scaling of a
  float coordinate to pixels, which returns a pixel or the ValueError or
  OverflowError that Python's `int(round(float(...)))` raises.

Loops in the source are `method`s proved equal to a specification function,
and the properties are proved about those functions. Two classes hold state
that the source updates in place:

- `FileReading.FileReader` with its archive cache;
- `Datasets.ImageDataset` with its memoised label names.

`DatasetWriting.DatasetWriter` owns the disk it writes to.

The model keeps the source's behaviour where it differs from what a reader
might expect:

- **Classification writer.** The writer joins a record's class ids with
  '.'. The loader splits on ','. So a written classification manifest
  loads back only when every record has exactly one id; otherwise loading
  fails with ValueError (`DatasetWriting.WriteThenLoadClassification`).
- **Relationship datasets.** The writer writes only their label table and
  no manifest.
- **Empty manifest.** Kind detection fails on an empty manifest with
  IndexError.
- **Label table length.** The table check in `get_labels` accepts a table
  one name shorter than the largest id needs (`>=` against the maximum id).
- **COCO round trip.** The COCO writer shifts every class id up by one,
  and the reader keeps COCO's ids as they are. Writing and reading back
  therefore gives every id one higher, with a `"0"` name in front of the
  table (`Coco.WriteThenReadRecords`, `Coco.WriteThenReadLabels`).
- **`defrag` on relationships.** The rebuilt tuple in the relationship
  branch of `defrag` is malformed. It is kept as written beside a
  corrected version (see Findings).

## Model

| member | source | states |
|---|---|---|
| Files.FirstFree | simpledataset/common/dataset_writer.py:48-53 | the search over numbered candidates returns a name that does not exist on the disk, or RuntimeError |
| Files.FirstFreeFails | simpledataset/common/dataset_writer.py:48-53 | the search fails exactly when every candidate from i to 99 is taken |
| Files.FirstFreeFirst | simpledataset/common/dataset_writer.py:48-51 | a successful search returns the lowest-numbered free candidate; every one before it is taken |
| Files.CandidateChars | simpledataset/common/dataset_writer.py:49 | numbering a name that is a single field without '@' gives again a non-empty single field without '@' |
| FileReading.SplitCompoundSpec | simpledataset/common/file_reader.py:15-16 | unpacking `split('@')` into two names succeeds exactly when the path holds one '@'; the two names hold no '@' and rejoin to the path |
| FileReading.ReadSpec | simpledataset/common/file_reader.py:12-24 | a mode other than 'r' and 'rb' is an AssertionError; a successful read is text in mode 'r' and raw bytes in mode 'rb' |
| FileReading.FileReader.constructor | simpledataset/common/file_reader.py:7-10 | a new reader has the given disk and base directory and an empty archive cache |
| FileReading.FileReader.Read | simpledataset/common/file_reader.py:12-24 | returns what `ReadSpec` says whatever is cached; caches exactly the archive it opens, keeps every cached archive unchanged, and leaves the cache alone for a path without '@' |
| FileReading.SecondReadOpensNothing | simpledataset/common/file_reader.py:17-18 | once a read has opened and cached an archive, reading the same path again opens nothing |
| KindDetection.PayloadKind | simpledataset/common/dataset_type_detector.py:16-24 | a first payload line of 5 fields is detection, of 11 fields relationship, of any other count RuntimeError; an empty payload is an IndexError; never classification |
| KindDetection.Detect | simpledataset/common/dataset_type_detector.py:6-24 | an empty manifest or a first line with fewer than two fields is an IndexError; otherwise the answer is classification exactly when the label field starts with a digit or ',' |
| KindDetection.DetectFirstLineOnly | simpledataset/common/dataset_type_detector.py:7 | lines after the first never change the detected kind |
| KindDetection.PayloadKindOfEncodedBoxes | simpledataset/common/dataset_type_detector.py:16-19 | a payload written by the box encoder is detected as detection, or is an IndexError when it holds no box |
| LabelCodecs.ParseInts | simpledataset/common/dataset.py:103 | one integer per token, in order; a ValueError only when some token is not an integer as `int` reads it (decimal digits of any script, single underscores between digits) |
| LabelCodecs.ParseIntsOfStrings | simpledataset/common/dataset.py:103 | integers written with `str` parse back to the same integers |
| Strings.ParseIntOfIntToString | simpledataset/common/dataset.py:103 | `int(str(i)) == i` |
| Strings.ParseIntGrouped | simpledataset/common/dataset.py:103 | `int` reads "1_000" as 1000 |
| Strings.ParseIntArabicIndic | simpledataset/common/dataset.py:103 | `int` reads Arabic-Indic "١٢" as 12 |
| Strings.ParseIntDoubleUnderscore | simpledataset/common/dataset.py:103 | `int` rejects "1__0" with ValueError |
| LabelCodecs.ParseClassIds | simpledataset/common/dataset.py:101-105 | the field reads exactly when its ','-separated parts are integers and no id repeats; the ids are the parts parsed in order; AssertionError only when the parts parse but repeat an id |
| LabelCodecs.ClassIdsOfSingle | simpledataset/common/dataset.py:102-105 | a single id written with `str` loads back as the list holding that id |
| LabelCodecs.ParseBoxLine | simpledataset/common/dataset.py:112 | a detection payload line decodes to a box or fails with ValueError |
| LabelCodecs.BoxFromInts | simpledataset/common/dataset.py:112 | integers make a box exactly when there are five, taken in slot order; otherwise ValueError |
| LabelCodecs.BoxLines | simpledataset/common/dataset_writer.py:37-40 | one encoded line per box, in box order |
| LabelCodecs.EncodeBoxNoLineBreak | simpledataset/common/dataset_writer.py:40 | an encoded box line holds no line break |
| LabelCodecs.TokensOfEncodedBox | simpledataset/common/dataset_writer.py:40 | an encoded box line splits back into the five numbers written |
| LabelCodecs.ParseBoxLineOfEncode | simpledataset/common/dataset.py:112 | an encoded box line decodes to the same box |
| LabelCodecs.EncodedBoxLines | simpledataset/common/dataset.py:111-113 | every encoded line of a box list is a single line that decodes to its box |
| LabelCodecs.BoxesRoundTrip | simpledataset/common/dataset.py:109-114 | decoding the encoded payload of any box list, the empty one included, gives back that list |
| LabelCodecs.BoxPayloadLines | simpledataset/common/dataset_writer.py:37-40 | the lines of an encoded payload are the encoded boxes |
| LabelCodecs.BoxLinesDecode | simpledataset/common/dataset.py:111-114 | the encoded lines decode, line by line, to the boxes |
| LabelCodecs.ParseRelationLine | simpledataset/common/dataset.py:121-123 | ValueError exactly when a token is not an integer; otherwise a count other than eleven is a RuntimeError |
| LabelCodecs.RelationFromInts | simpledataset/common/dataset.py:121-124 | integers make a relationship exactly when there are eleven, in slot order; otherwise RuntimeError |
| LabelCodecs.ParseEach | simpledataset/common/dataset.py:111-114 | every line decodes, one value per line in order, or the result is the error of the first line that does not |
| LabelCodecs.ParseEachFailsEarly | simpledataset/common/dataset.py:111-114 | once a prefix of the lines fails, the whole payload fails the same way: no later line is looked at |
| LabelCodecs.ParseEachOfDecodable | simpledataset/common/dataset.py:111-114 | lines that each decode to the matching value decode together to all the values |
| LabelCodecs.DecodeLines | simpledataset/common/dataset.py:110-114 | the payload loop decodes the payload's lines as `ParseEach` does |
| Datasets.NewDataset | simpledataset/common/dataset.py:15-26 | a new dataset keeps kind, records, base directory and names; the images directory defaults to the base directory |
| Datasets.SlotIdsMembers | simpledataset/common/dataset.py:178-184 | an id is in a record's class slots exactly when some label carries it: any id for classification, slot 0 for detection, slots 0, 5 or 10 for relationships |
| Datasets.ClassSetMembers | simpledataset/common/dataset.py:135-139 | the ids in use are exactly those in some record's class slots |
| Datasets.AllSlotIds | simpledataset/commands/summary.py:11-21 | the class-slot ids of all records, record after record, hold exactly the ids in use |
| Datasets.RelabelBox | simpledataset/commands/map.py:14 | only the class id of a box is replaced, through the mapping; the coordinates are copied |
| Datasets.RelabelRelation | simpledataset/commands/defrag.py:38 | the corrected relationship relabelling: slots 0, 5 and 10 are replaced through the mapping and every coordinate stays in its slot |
| Datasets.Relabel | simpledataset/commands/map.py:10-15 | the class-slot ids are replaced one by one through the mapping; everything else, the number of labels and the kind are kept |
| Datasets.Renumber | simpledataset/commands/map.py:11 | `mapping.get(x, x)`: an id the mapping names goes where it says, any other id is kept |
| Datasets.RelabelAll | simpledataset/commands/map.py:10-15 | every record keeps its image and position and has its labels relabelled |
| Datasets.RelabelAllClassSet | simpledataset/commands/map.py:10-15 | the ids in use after relabelling are exactly the images of the ids in use before |
| Datasets.RelabelFixes | simpledataset/commands/map.py:11 | a mapping that fixes every id in use changes nothing |
| Datasets.RecordMax | simpledataset/common/dataset.py:141-146 | one record's step: an empty classification list is a ValueError (`max` of nothing); an empty box or relationship list is skipped; otherwise the larger of the running maximum and the record's class-slot ids |
| Datasets.MaxClassId | simpledataset/common/dataset.py:141-146 | the maximum over the records fails only with ValueError |
| Datasets.MaxClassIdSpec | simpledataset/common/dataset.py:162-168 | the maximum bounds every id in use and is 0 or one of them; it fails exactly when some classification record has no label |
| Datasets.GetMaxClassId | simpledataset/common/dataset.py:186-193 | the record loop computes `MaxClassId` |
| Datasets.GetNumClasses | simpledataset/common/dataset.py:135-139 | the set loop counts the distinct ids in use |
| Datasets.GeneratedLabels | simpledataset/common/dataset.py:67 | the generated table is "0", "1", ... up to the maximum id, one name per id |
| Datasets.GeneratedLabelsDistinct | simpledataset/common/dataset.py:67-69 | the generated table passes the duplicate check |
| Datasets.GetLabels | simpledataset/common/dataset.py:61-71 | a returned table is duplicate-free and at least as long as the maximum id; a failure is an AssertionError or ValueError |
| Datasets.LabelTable | simpledataset/common/dataset.py:62-67 | the table before the checks fails only with ValueError |
| Datasets.GetLabelsGenerated | simpledataset/common/dataset.py:66-70 | without labels.txt the table is exactly the generated one, which names every id in use |
| Datasets.GetLabelsFromFile | simpledataset/common/dataset.py:63-71 | with labels.txt the table is its lines, accepted exactly when they are distinct and at least as many as the maximum id |
| Datasets.LabelsOf | simpledataset/common/dataset.py:87-92 | given names are returned unchanged; without them the table is `get_labels()` |
| Datasets.LabelsMemoStable | simpledataset/common/dataset.py:88-92 | storing the computed table does not change what `labels` returns next |
| Datasets.ImageDataset.constructor | simpledataset/common/dataset.py:15-24 | the object holds exactly the given dataset |
| Datasets.ImageDataset.Labels | simpledataset/common/dataset.py:87-92 | returns `LabelsOf` of the state before the call, and stores the table only when it was computed successfully |
| Datasets.ParseLabelField | simpledataset/common/dataset.py:101-125 | a decoded label field is of the kind being loaded |
| Datasets.ParseManifestLine | simpledataset/common/dataset.py:35-38 | a stripped line that does not split into exactly an image and a label field is a ValueError; a parsed record's image is a single non-empty field and its labels fit the kind |
| Datasets.LoadSpecShape | simpledataset/common/dataset.py:29-43 | a loaded dataset has one record per manifest line, in line order, all of the loaded kind, and no names of its own |
| Datasets.Load | simpledataset/common/dataset.py:29-43 | the line loop parses the manifest as `LoadSpec` does, stopping at the first bad line |
| Datasets.FactoryLoad | simpledataset/common/dataset.py:201-207 | a detected kind loads through that kind's manifest loader (`LoadSpec`), so a loaded dataset has the detected kind; a detection failure is the load's failure |
| DatasetWriting.StemAndExt | simpledataset/common/dataset_writer.py:46 | splitting at the first '.' fails (ValueError) exactly when the name has no '.'; otherwise stem + "." + ext is the name and the stem has no '.' |
| DatasetWriting.UniqueFilename | simpledataset/common/dataset_writer.py:42-53 | a returned name does not exist; a failure is a ValueError or RuntimeError |
| DatasetWriting.UniqueFilenameSpec | simpledataset/common/dataset_writer.py:42-53 | a free name is kept; a taken name without '.' is a ValueError; otherwise the first free `{stem}{i}.{ext}`, with RuntimeError exactly when all 100 are taken |
| DatasetWriting.LabelsKeepExistingFiles | simpledataset/common/dataset_writer.py:15-21 | the labels step writes the '\n'-joined table to a name that did not exist and changes nothing else; skipped, it changes nothing |
| DatasetWriting.RelationshipWritesOnlyLabels | simpledataset/common/dataset_writer.py:23-35 | a relationship dataset gets no manifest and no zip: the write is the labels step alone |
| DatasetWriting.DottedIdsField | simpledataset/common/dataset_writer.py:26 | a '.'-joined id list is made of digits, '-' and '.', and with two ids or more has a '.' after its first character |
| DatasetWriting.DottedNotInt | simpledataset/common/dataset_writer.py:26 | such a field with a '.' after its first character is not an integer |
| DatasetWriting.DottedIdsReject | simpledataset/common/dataset_writer.py:26 | two or more ids joined with '.' do not load back as a classification label field (ValueError) |
| DatasetWriting.DottedIdsParse | simpledataset/common/dataset_writer.py:26 | a written id field has no space at its ends and no line break; it loads back when it holds one id and is a ValueError otherwise |
| DatasetWriting.ManifestLineOfPair | simpledataset/common/dataset.py:36-38 | a line made of an image, one space and a trimmed label field loads as that image with the field's labels |
| DatasetWriting.ManifestLineWithoutField | simpledataset/common/dataset.py:36 | a line holding only an image is a ValueError |
| DatasetWriting.ClassificationLineReadBack | simpledataset/common/dataset_writer.py:26 | a written classification line loads back as its record exactly when the record has one id, and is a ValueError otherwise |
| DatasetWriting.EntryNameInjective | simpledataset/common/dataset_writer.py:33 | entries `{i}.txt` of different records have different names |
| DatasetWriting.DetectionEntriesLookup | simpledataset/common/dataset_writer.py:32-34 | entry `{i}.txt` of the zip holds record i's encoded boxes |
| DatasetWriting.DetectionEntriesKeys | simpledataset/common/dataset_writer.py:32-34 | the zip holds no entry other than `{i}.txt` for each record i |
| DatasetWriting.CompoundFieldReads | simpledataset/common/file_reader.py:15-21 | a compound field `{zip}@{entry}` reads that entry's text out of the zip |
| DatasetWriting.DetectionLineReadBack | simpledataset/common/dataset_writer.py:35 | a written detection line loads back as its record, through the zip entry it names |
| DatasetWriting.DetectionManifestReadBack | simpledataset/common/dataset_writer.py:27-35 | a written detection manifest, with the zip written beside it, loads back as the records |
| DatasetWriting.UniqueFilenameChars | simpledataset/common/dataset_writer.py:42-53 | a unique name found for a single field without '@' is again one |
| DatasetWriting.WriteThenLoadDetection | simpledataset/common/dataset_writer.py:27-35 | a written detection dataset loads back with the same records, provided the zip did not overwrite the manifest |
| DatasetWriting.ClassificationManifestReadBack | simpledataset/common/dataset_writer.py:23-26 | a written classification manifest loads back as the records when each has exactly one id, and is a ValueError otherwise |
| DatasetWriting.WriteThenLoadClassification | simpledataset/common/dataset_writer.py:23-26 | a written classification dataset loads back with the same records exactly when every record has one id, and fails with ValueError otherwise |
| DatasetWriting.DatasetWriter.constructor | simpledataset/common/dataset_writer.py:8-9 | the writer holds its directory and the disk it writes to |
| DatasetWriting.DatasetWriter.GetUniqueFilename | simpledataset/common/dataset_writer.py:42-53 | the candidate loop returns what `UniqueFilename` specifies |
| DatasetWriting.LabelsTarget | simpledataset/common/dataset_writer.py:15-18 | the file chosen for the labels does not exist yet in the directory |
| DatasetWriting.DatasetWriter.WriteLabelsFile | simpledataset/common/dataset_writer.py:14-21 | the labels step leaves the disk `WriteLabels` gives, or fails with its error and leaves the disk as it was; the dataset's memo is filled exactly when the labels were not skipped, a file name was found and the labels could be computed |
| DatasetWriting.DatasetWriter.Write | simpledataset/common/dataset_writer.py:11-35 | the outcome and the new disk are `WriteSpec`: an output name with '/' is an AssertionError, then the labels step, then the manifest (and, for detection, the zip); the dataset's memo is filled exactly when the labels were asked for and computed |
| DatasetWriting.ClassificationText | simpledataset/common/dataset_writer.py:24-26 | the record loop writes one line per record, in order |
| DatasetWriting.DetectionPayloads | simpledataset/common/dataset_writer.py:29-35 | the enumerate loop writes manifest line i and zip entry i for each record i |
| TaskConversion.SuffixStart | simpledataset/converters/task_converter.py:16 | pathlib's suffix starts at the last '.', unless that dot is the name's first or last character, in which case there is no suffix |
| TaskConversion.UniquePath | simpledataset/converters/task_converter.py:11-20 | a returned name does not exist in the directory; the only failure is RuntimeError |
| TaskConversion.UniquePathSpec | simpledataset/converters/task_converter.py:11-20 | stem and suffix make up the name; a free name is kept; otherwise the first free `{stem}{i}{suffix}`, with RuntimeError exactly when all 100 are taken |
| TaskConversion.MakeUniqueFilepath | simpledataset/converters/task_converter.py:11-20 | the candidate loop returns what `UniquePath` specifies |
| TaskConversion.UnionBox | simpledataset/converters/task_converter.py:71-76 | the converted box is labelled with the predicate and contains both the subject and the object box |
| TaskConversion.UnionBoxSmallest | simpledataset/converters/task_converter.py:72-75 | any box containing both subject and object contains the converted box |
| TaskConversion.VrOdRecords | simpledataset/converters/task_converter.py:78 | each record keeps its image and position, with one converted box per relationship, in order |
| TaskConversion.ConvertVrOd | simpledataset/converters/task_converter.py:70-79 | a detection dataset in the output directory with the converted records, the source's images directory and its label table; fails exactly when the table cannot be produced |
| TaskConversion.FullFrameSpec | simpledataset/converters/task_converter.py:85 | full-frame boxes keep the ids in order and each covers the whole image |
| TaskConversion.IcOdRecords | simpledataset/converters/task_converter.py:82-87 | one detection record per classification record, keeping its image |
| TaskConversion.ConvertIcOd | simpledataset/converters/task_converter.py:81-88 | the conversion succeeds exactly when every image loads and the label table is produced; a failing image load is the first one in record order; a result is a detection dataset in the output directory with one record per source record, the source's images directory and its label table |
| TaskConversion.ConvertIcOdRecords | simpledataset/converters/task_converter.py:82-87 | record i keeps its image and carries one box per id, in id order, covering image i's decoded size |
| TaskConversion.KeptBoxes | simpledataset/converters/task_converter.py:49-61 | no more boxes are kept than there were |
| TaskConversion.KeptBoxesSpec | simpledataset/converters/task_converter.py:51-61 | a box is kept exactly when some box that is not invalid clamps to it; in a non-empty image every kept box is a non-empty crop inside the image |
| TaskConversion.KeptFullFrame | simpledataset/converters/task_converter.py:51-61 | full-frame boxes of a non-empty image are all kept unchanged |
| TaskConversion.PictureCrops | simpledataset/converters/task_converter.py:62 | one crop per kept box of a picture, in order |
| TaskConversion.CropAllStops | simpledataset/converters/task_converter.py:47-48 | once an image fails to load, later records change nothing |
| TaskConversion.CropsInFrame | simpledataset/converters/task_converter.py:55-62 | every crop of a non-empty picture is a non-empty region inside it |
| TaskConversion.CropRecords | simpledataset/converters/task_converter.py:65 | one classification record per crop |
| TaskConversion.CropEntriesSpec | simpledataset/converters/task_converter.py:45-66 | the output images `{zip}@{index}.jpg` are all different, and entry `{index}.jpg` holds crop number index |
| TaskConversion.CropSnoc | simpledataset/converters/task_converter.py:63-66 | one more crop appends one record named by the running index and adds one zip entry |
| TaskConversion.CropPicture | simpledataset/converters/task_converter.py:49-66 | the box loop of one picture appends its kept crops, keeping the index equal to the number of crops so far |
| TaskConversion.ConvertOdIc | simpledataset/converters/task_converter.py:40-68 | the record loop produces what `ConvertOdIcSpec` specifies: a classification dataset in the output directory whose table is the source's, and the zip closed with the crops made so far |
| TaskConversion.RouteTable | simpledataset/converters/task_converter.py:25-28 | exactly four (source, destination) pairs have a route; a same-kind pair has none; each route's steps chain from the source kind to the destination kind |
| TaskConversion.ApplyStep | simpledataset/converters/task_converter.py:36 | a converter's result is a well-kinded dataset of its output kind |
| TaskConversion.ApplySteps | simpledataset/converters/task_converter.py:35-36 | the steps applied left to right end in the last step's kind; no step leaves the dataset as it is |
| TaskConversion.ConvertSpec | simpledataset/converters/task_converter.py:24-38 | a pair without a route is a RuntimeError that leaves the disk alone; a result is well-kinded and of the destination kind |
| TaskConversion.Convert | simpledataset/converters/task_converter.py:30-38 | the converter loop computes `ConvertSpec` |
| Coco.AnnotationBox | simpledataset/converters/coco.py:24 | a bbox [x, y, w, h] becomes (category_id, x, y, x + w, y + h), with the category copied unshifted |
| Coco.DedupSpec | simpledataset/converters/coco.py:29-33 | the duplicate check leaves a list without repeats holding exactly the boxes offered, and changes a repeat-free list not at all |
| Coco.GroupedIsDedup | simpledataset/converters/coco.py:22-33 | each image's list is its non-degenerate boxes in annotation order with later duplicates dropped |
| Coco.GroupedSpec | simpledataset/converters/coco.py:25-33 | each image's list has no repeats and no degenerate box, and holds exactly the non-degenerate boxes annotated on the image |
| Coco.ImageBoxesSpec | simpledataset/converters/coco.py:22-27 | the candidate boxes of an image are the non-degenerate boxes of its annotations |
| Coco.CocoRecords | simpledataset/converters/coco.py:35-39 | one record per `images` entry, in order, with that image's list (empty when none) |
| Coco.NameMapKeys | simpledataset/converters/coco.py:51 | the name map's keys are the category ids |
| Coco.NameMapLast | simpledataset/converters/coco.py:51 | the last category with an id decides its name |
| Coco.MaxId | simpledataset/converters/coco.py:52 | the maximum is one of the category ids and bounds them all |
| Coco.CocoLabels | simpledataset/converters/coco.py:50-53 | max id + 1 names, name i being category i's name or `str(i)`; ValueError exactly when there is no category |
| Coco.CocoRead | simpledataset/converters/coco.py:13-42 | fails exactly when there is no category; otherwise a well-kinded detection dataset of the grouped records, based in the images directory, with the `_get_labels` table |
| Coco.Read | simpledataset/converters/coco.py:13-42 | the reader's loops compute `CocoRead` |
| Coco.ToAnnotation | simpledataset/converters/coco.py:64-71 | a written annotation has category class_id + 1, bbox [x, y, x2 - x, y2 - y], area w * h, and its image and annotation ids |
| Coco.RecordAnnotations | simpledataset/converters/coco.py:64-72 | a record's boxes become annotations numbered on from the running index |
| Coco.Extension | simpledataset/converters/coco.py:75 | the text after the last '.', or the whole name when it has none |
| Coco.AnnotationIds | simpledataset/converters/coco.py:62-72 | there is one annotation per box; annotation ids count up from the start index with no gap; image ids are record positions |
| Coco.CopyOne | simpledataset/converters/coco.py:74-84 | after a failure nothing more happens, and a success means there was no earlier failure |
| Coco.CopyImages | simpledataset/converters/coco.py:63-84 | without a failure there is one `images` entry per record |
| Coco.CopiedImageIds | simpledataset/converters/coco.py:76-81 | written image i has id i and file name `{i}.{ext}` of record i's image |
| Coco.CopyNext | simpledataset/converters/coco.py:74-84 | one more pass of the loop body leaves the copy run `CopyImages` gives for one more record |
| Coco.CopyFailureStops | simpledataset/converters/coco.py:74 | once an image fails to load, later records change nothing |
| Coco.WrittenCategories | simpledataset/converters/coco.py:86-89 | label i is written as category i + 1 |
| Coco.RecordAnnotationsBoxes | simpledataset/converters/coco.py:63-72 | a record's annotations, read back for its own image, give its boxes with every class one higher, and nothing for any other image |
| Coco.AnnotationsBoxes | simpledataset/converters/coco.py:62-72 | all written annotations, read back for image i, give record i's boxes shifted by one, and nothing for an id that is not a record position |
| Coco.WrittenCategoriesReadBack | simpledataset/converters/coco.py:86-89 | categories written for a table read back as "0" followed by the table, or ValueError for an empty table |
| Coco.WrittenNameMap | simpledataset/converters/coco.py:86-89 | written categories map id i + 1 to label i, have no id 0, and have the table's length as largest id |
| Coco.WrittenGroups | simpledataset/converters/coco.py:62-72 | the written annotations group back into each record's boxes, shifted by one |
| Coco.WrittenParts | simpledataset/converters/coco.py:57-93 | a written document holds the copied images, the annotations numbered from the record count, and the categories of the table read after the copies |
| Coco.ReadBack | simpledataset/converters/coco.py:76-80 | the renamed images read back with the records' annotations give each renamed record with every class one higher |
| Coco.WriteThenReadLabels | simpledataset/converters/coco.py:86-89 | reading back a written document gives the table with "0" in front, or ValueError when the table was empty |
| Coco.WriteThenReadRecords | simpledataset/converters/coco.py:63-84 | reading back a written document gives one record per record, image i renamed `{i}.{ext}` and every class id one higher |
| Coco.AnnotateRecord | simpledataset/converters/coco.py:64-72 | the box loop appends the record's annotations and advances the index by its number of boxes |
| Coco.AnnotateNext | simpledataset/converters/coco.py:63-72 | one pass of the record loop extends the annotations by that record's chunk |
| Coco.RecordLoop | simpledataset/converters/coco.py:63-84 | the record loop computes the image copies and, when none fails, the full annotation list |
| Coco.Write | simpledataset/converters/coco.py:57-93 | the writer computes `CocoWrite`: only detection datasets are accepted, and the document and the disk are as specified |
| HicoDet.ReadBox | simpledataset/converters/hicodet.py:13-16 | stored fields (x, x2, y, y2) become (x, y, x2, y2), accepted exactly when x < x2 and y < y2; otherwise AssertionError |
| HicoDet.ReadBoxes | simpledataset/converters/hicodet.py:45-46 | every box is read, referenced or not; the first bad one fails the list |
| HicoDet.ObjectNames | simpledataset/converters/hicodet.py:22 | the object name of each action, in order |
| HicoDet.VerbNames | simpledataset/converters/hicodet.py:27 | each action's predicate with 'verb_' in front, in order |
| HicoDet.LabelNamesSpec | simpledataset/converters/hicodet.py:26-30 | the table is 'person' and the object names, sorted and distinct, then the 'verb_' predicates, sorted and distinct |
| HicoDet.ActionId | simpledataset/converters/hicodet.py:31 | an action's pair is the first table position of its object, which lies in the object part, and the first table position of its verb |
| HicoDet.ActionIds | simpledataset/converters/hicodet.py:31 | one pair per action, in order |
| HicoDet.PersonId | simpledataset/converters/hicodet.py:32 | the person id is a position of 'person' in the object part |
| HicoDet.Connect | simpledataset/converters/hicodet.py:47-49 | each 1-based connection emits the person box p - 1 and object box o - 1 (Python indexing); any index out of range is an IndexError |
| HicoDet.AnnotationRelations | simpledataset/converters/hicodet.py:38-49 | an invisible annotation emits nothing; a bad action id is an IndexError; otherwise one tuple per connection, each with 'person' and a listed action |
| HicoDet.EntryRelations | simpledataset/converters/hicodet.py:38-49 | every tuple of an entry has 'person' and a listed action |
| HicoDet.HicoRecords | simpledataset/converters/hicodet.py:35-50 | one record per entry, in order, named by its file name, even with no tuples |
| HicoDet.HicoRecordsOk | simpledataset/converters/hicodet.py:35-50 | the entries convert exactly when each entry's annotations do |
| HicoDet.HicoRecordsErr | simpledataset/converters/hicodet.py:35-50 | a failure is the failure of one entry's annotations |
| HicoDet.HicoRead | simpledataset/converters/hicodet.py:12-52 | a missing split key is a KeyError |
| HicoDet.HicoReadOk | simpledataset/converters/hicodet.py:12-52 | a split reads exactly when it is present and every entry's annotations convert |
| HicoDet.HicoReadSpec | simpledataset/converters/hicodet.py:20-52 | a well-kinded relationship dataset with the `list_action` table and one record per entry, in order; every tuple names 'person' and the object and verb of a listed action |
| HicoDet.ConnectLoop | simpledataset/converters/hicodet.py:48-49 | the connection loop computes `Connect` |
| HicoDet.EntryRelationsFailsEarly | simpledataset/converters/hicodet.py:38-49 | the first failing annotation fails the entry |
| HicoDet.EntryLoop | simpledataset/converters/hicodet.py:37-49 | the annotation loop computes `EntryRelations` |
| HicoDet.HicoRecordsFailsEarly | simpledataset/converters/hicodet.py:35-50 | the first failing entry fails the read |
| HicoDet.Read | simpledataset/converters/hicodet.py:12-52 | the reader computes `HicoRead` |
| HicoDet.HicoWrite | simpledataset/converters/hicodet.py:61-63 | always NotImplementedError |
| OpenImagesOD.ResolveImageFilename | simpledataset/converters/openimages_od.py:68-78 | the only failure is an IndexError |
| OpenImagesOD.ResolveImageFilenameSpec | simpledataset/converters/openimages_od.py:68-78 | `{id}.jpg` wins when it exists; a returned name exists; None means neither candidate exists; IndexError exactly for an empty id without a `.jpg` |
| OpenImagesOD.ImageSize | simpledataset/converters/openimages_od.py:80-87 | a failure is an IndexError, a RuntimeError or an image error |
| OpenImagesOD.DiskConsistent | simpledataset/converters/openimages_od.py:81-84 | an image that can be sized resolves to a file; an image that resolves to None is a RuntimeError |
| OpenImagesOD.SkippedByDefault | simpledataset/converters/openimages_od.py:14 | under the default options a row is skipped exactly when it is a depiction or seen from inside |
| OpenImagesOD.KeepRow | simpledataset/converters/openimages_od.py:43-45 | a kept row's box converts XMin, YMin, XMax, YMax in that order, each against the image's width or height; the first conversion that fails (ValueError, OverflowError) is the row's error |
| OpenImagesOD.RowOutcomeSpec | simpledataset/converters/openimages_od.py:32-45 | a row first has its image sized, skipped or not; a skipped row then contributes nothing; a kept row contributes its converted box or its conversion error |
| OpenImagesOD.KeptBoxes | simpledataset/converters/openimages_od.py:32-45 | when the rows all pass, the kept boxes and the skipped rows account for every row |
| OpenImagesOD.KeptBoxesOk | simpledataset/converters/openimages_od.py:32-45 | the row scan succeeds exactly when every row's outcome does |
| OpenImagesOD.KeptBoxesMembers | simpledataset/converters/openimages_od.py:35-45 | each non-skipped row's box is kept, and only those |
| OpenImagesOD.KeptBoxesFirstError | simpledataset/converters/openimages_od.py:32-45 | a failed scan fails with the error of the first failing row, every earlier row having passed |
| OpenImagesOD.RowNames | simpledataset/converters/openimages_od.py:30-31 | every row's label name, skipped or not |
| OpenImagesOD.FirstSeen | simpledataset/converters/openimages_od.py:43 | the dict's keys are the distinct image ids, each once |
| OpenImagesOD.FirstSeenOrder | simpledataset/converters/openimages_od.py:52-53 | the keys come in the order of their first occurrences |
| OpenImagesOD.Group | simpledataset/converters/openimages_od.py:43 | an image's group holds only its own kept boxes, and is non-empty when it has one |
| OpenImagesOD.ToBoxes | simpledataset/converters/openimages_od.py:55 | each box's name is replaced by its table position, which names it |
| OpenImagesOD.GroupRecords | simpledataset/converters/openimages_od.py:52-56 | one record per key, in key order, with the resolved file name and the group's boxes |
| OpenImagesOD.KeptFacts | simpledataset/converters/openimages_od.py:31-54 | kept names are in the table and every key resolves to a file |
| OpenImagesOD.ReadRows | simpledataset/converters/openimages_od.py:14-58 | the read succeeds exactly when every row's outcome does; a failed read carries the row scan's first error |
| OpenImagesOD.DiskRowsPass | simpledataset/converters/openimages_od.py:32-45 | on a disk, a row passes exactly when its image can be sized and, unless skipped, its four coordinates convert |
| OpenImagesOD.ReadOD | simpledataset/converters/openimages_od.py:14-58 | on a disk: the read succeeds exactly when every row's image can be sized (skipped or not) and every non-skipped row's coordinates convert; a failure is the first failing row's |
| OpenImagesOD.ReadRowsLabels | simpledataset/converters/openimages_od.py:49-55 | the table is the sorted distinct names of all rows, kept or skipped, and every box's id names its row's label |
| OpenImagesOD.ReadRowsRecords | simpledataset/converters/openimages_od.py:52-58 | a well-kinded detection dataset with one non-empty record per image that kept a box, in first-kept order, under its resolved name |
| OpenImagesOD.GroupEmpty | simpledataset/converters/openimages_od.py:43 | an image with no kept box has an empty group |
| OpenImagesOD.AddToGroup | simpledataset/converters/openimages_od.py:43 | one `append` keeps the dictionary and its key order in step with the kept boxes |
| OpenImagesOD.ScanRow | simpledataset/converters/openimages_od.py:32-45 | one pass of the row loop, with the size cache, computes the row's outcome and keeps the cache correct |
| OpenImagesOD.AddOutcome | simpledataset/converters/openimages_od.py:35-45 | a skipped row is counted, a kept box joins its image's group |
| OpenImagesOD.ScanStep | simpledataset/converters/openimages_od.py:27-45 | a passing row extends the kept boxes by its box, or the skip count by one |
| OpenImagesOD.KeptBoxesFailsEarly | simpledataset/converters/openimages_od.py:27-45 | once a row fails, every longer prefix fails with the same error |
| OpenImagesOD.ScanRows | simpledataset/converters/openimages_od.py:27-45 | the row loop computes the row scan: it fails with its first error, otherwise it groups exactly the kept boxes and counts the skipped rows |
| OpenImagesOD.ReadWith | simpledataset/converters/openimages_od.py:20-58 | the two loops compute `ReadRows`; the logged skip count is rows minus kept boxes |
| OpenImagesOD.RecordLoop | simpledataset/converters/openimages_od.py:52-56 | the record loop computes `GroupRecords` |
| OpenImagesOD.Read | simpledataset/converters/openimages_od.py:14-58 | the reader computes `ReadOD` and logs the skip count |
| OpenImagesOD.WriteOD | simpledataset/converters/openimages_od.py:90-92 | always NotImplementedError |
| OpenImagesVR.AsBoxRow | simpledataset/converters/openimages_vr.py:35-44 | a used row contributes box 1 labelled by `LabelName2`, and no flag skips it |
| OpenImagesVR.IsRows | simpledataset/converters/openimages_vr.py:32-33 | exactly the rows whose relationship is "is" are used |
| OpenImagesVR.NothingSkipped | simpledataset/converters/openimages_vr.py:41 | no used row is skipped |
| OpenImagesVR.ReadVR | simpledataset/converters/openimages_vr.py:14-57 | the read succeeds exactly when every "is" row's image can be sized and its box-1 coordinates convert; a failure is the first failing row's |
| OpenImagesVR.ReadVRKeepsEveryUsedRow | simpledataset/converters/openimages_vr.py:30-57 | every used row keeps its box, the table holds exactly the `LabelName2` of the "is" rows, and the result is a detection dataset |
| OpenImagesVR.Read | simpledataset/converters/openimages_vr.py:14-57 | the reader computes `ReadVR` and logs rows minus used rows as skipped |
| OpenImagesVR.WriteVR | simpledataset/converters/openimages_vr.py:65-67 | always NotImplementedError |
| VisualGenome.LoadBox | simpledataset/converters/visualgenome_vr.py:9-15 | (lower-cased name, x, y, x + w, y + h), the name from `names[0]` when `names` is present (IndexError when empty), else from `name` (KeyError when absent) |
| VisualGenome.LoadRelation | simpledataset/converters/visualgenome_vr.py:28-30 | the subject's box, then the object's, then 'verb_' + the lower-cased predicate; the subject's error wins |
| VisualGenome.EntryLabels | simpledataset/converters/visualgenome_vr.py:27-30 | one tuple per relationship, in order, or the first failure |
| VisualGenome.NamedData | simpledataset/converters/visualgenome_vr.py:24-31 | one record per entry, in order, or the first failure |
| VisualGenome.RelObjects | simpledataset/converters/visualgenome_vr.py:40-41 | the names added to the object set are exactly the subject and object names |
| VisualGenome.RelPredicates | simpledataset/converters/visualgenome_vr.py:39 | the names added to the predicate set are exactly the predicates |
| VisualGenome.ObjectNames | simpledataset/converters/visualgenome_vr.py:37-41 | the object set holds exactly the subject and object names of all tuples |
| VisualGenome.PredicateNames | simpledataset/converters/visualgenome_vr.py:37-39 | the predicate set holds exactly the predicates of all tuples |
| VisualGenome.LabelNamesSpec | simpledataset/converters/visualgenome_vr.py:43 | the table is the object names, sorted and distinct, then the predicates, sorted and distinct; every name of every tuple is in it |
| VisualGenome.LabelId | simpledataset/converters/visualgenome_vr.py:44 | the id of a name is its last position in the table |
| VisualGenome.LabelIdPart | simpledataset/converters/visualgenome_vr.py:44 | a predicate's id lies in the predicate part, even when it is also an object name; any other name's id lies in the object part |
| VisualGenome.Substitute | simpledataset/converters/visualgenome_vr.py:47 | slots 0, 5 and 10 become ids that name them through the table, and the coordinates are copied |
| VisualGenome.SubstituteAll | simpledataset/converters/visualgenome_vr.py:47 | every tuple of a record is substituted, in order |
| VisualGenome.Substituted | simpledataset/converters/visualgenome_vr.py:47-48 | each record is named `{image_id}.jpg` and carries its substituted tuples |
| VisualGenome.VgRead | simpledataset/converters/visualgenome_vr.py:8-50 | the read succeeds exactly when every relationship's boxes load |
| VisualGenome.SubstitutedStandsFor | simpledataset/converters/visualgenome_vr.py:24-48 | a converted and substituted entry stands for the entry: its name and one tuple per relationship, through the table |
| VisualGenome.VgReadSpec | simpledataset/converters/visualgenome_vr.py:23-50 | a well-kinded relationship dataset with the table built from the names and one record per entry, in order, standing for the entry |
| VisualGenome.EntryLabelsFailsEarly | simpledataset/converters/visualgenome_vr.py:27-30 | the first failing relationship fails the entry |
| VisualGenome.EntryLoop | simpledataset/converters/visualgenome_vr.py:26-30 | the relationship loop computes `EntryLabels` |
| VisualGenome.NamedDataFailsEarly | simpledataset/converters/visualgenome_vr.py:24-31 | the first failing entry fails the conversion |
| VisualGenome.ConvertLoop | simpledataset/converters/visualgenome_vr.py:23-31 | the entry loop computes `NamedData` |
| VisualGenome.CollectNames | simpledataset/converters/visualgenome_vr.py:34-41 | the name loop fills the two sets with `ObjectNames` and `PredicateNames` |
| VisualGenome.Read | simpledataset/converters/visualgenome_vr.py:8-50 | the reader computes `VgRead` |
| VisualGenome.VgWrite | simpledataset/converters/visualgenome_vr.py:58-60 | always NotImplementedError |
| ConcatLabels.Unclash | simpledataset/commands/concat.py:29-30 | the result is not taken and is the name with dots appended |
| ConcatLabels.UnclashFirstFree | simpledataset/commands/concat.py:29-30 | every dotted form of the name shorter than the result is taken, so the result is the first free one |
| ConcatLabels.MergeTable | simpledataset/commands/concat.py:26-31 | the table grows by one name per input name and keeps the earlier names in front; a duplicate-free table stays so |
| ConcatLabels.MergeTableAt | simpledataset/commands/concat.py:26-31 | input name i lands right after the earlier names and the first i input names, unclashed against everything before it |
| ConcatLabels.MergedLabels | simpledataset/commands/concat.py:24-31 | the merged table is duplicate-free and as long as the input tables together |
| ConcatLabels.MergedPrefix | simpledataset/commands/concat.py:24-31 | the table after the first k inputs is a prefix of the final table |
| ConcatLabels.MergedPosition | simpledataset/commands/concat.py:26-31 | input k's name x lands at the offset of input k plus x, as itself with dots appended |
| ConcatLabels.UnclashLoop | simpledataset/commands/concat.py:29-30 | the while loop computes `Unclash` |
| ConcatLabels.MergeTableLoop | simpledataset/commands/concat.py:26-31 | the name loop computes `MergeTable` |
| ImageGrouping.Group | simpledataset/commands/concat.py:42-44 | one key per distinct visited path, in both dicts |
| ImageGrouping.GroupContents | simpledataset/commands/concat.py:42-44 | a path's list is the labels of all its visits, in order; its hash is the one taken on first sight |
| ImageGrouping.HashToPath | simpledataset/commands/concat.py:69-72 | every hash is mapped to the first key with that hash |
| ImageGrouping.HashToPathRepresents | simpledataset/commands/concat.py:69-72 | every key's hash has a representative with that same hash |
| ImageGrouping.Dedup | simpledataset/commands/concat.py:74-82 | the new keys are exactly the representatives of the keys' hashes |
| ImageGrouping.DedupValue | simpledataset/commands/concat.py:74-82 | a representative's list is the lists of all keys with its hash, in key order |
| ImageGrouping.DedupDistinctHashes | simpledataset/commands/concat.py:74-84 | no two new keys share a hash |
| ImageGrouping.DedupTotal | simpledataset/commands/concat.py:74-84 | merging keeps the total number of labels |
| ImageGrouping.GroupTotal | simpledataset/commands/concat.py:42 | grouping keeps every visited label |
| ImageGrouping.DedupImagesTotal | simpledataset/commands/concat.py:62-84 | `_dedup_images` keeps the total number of labels |
| ImageGrouping.HashToPathLoop | simpledataset/commands/concat.py:69-72 | the loop computes `HashToPath` |
| ImageGrouping.DedupLoop | simpledataset/commands/concat.py:74-84 | the loop computes `Dedup` |
| ImageGrouping.DedupImagesLoop | simpledataset/commands/concat.py:62-84 | `_dedup_images` computes `DedupImages` |
| Concat.KindSetSingle | simpledataset/commands/concat.py:11-12 | the kinds form a one-element set exactly when there are inputs and all share the first one's kind |
| Concat.ConcatKind | simpledataset/commands/concat.py:11-15 | mixed kinds, or no inputs, are a ValueError; otherwise the common kind |
| Concat.ShiftLabels | simpledataset/commands/concat.py:36-41 | every class-slot id moves up by the offset; coordinates, count and kind are kept |
| Concat.ShiftInverse | simpledataset/commands/concat.py:36-41 | shifting back down undoes the shift |
| Concat.Tables | simpledataset/commands/concat.py:24-26 | one table per input |
| Concat.TablesContents | simpledataset/commands/concat.py:24-26 | the tables load exactly when every input's table loads; table k is input k's own table; a failure is the first failing input's |
| Concat.RecordVisits | simpledataset/commands/concat.py:34-44 | one visit per record of an input |
| Concat.ReadFromNone | simpledataset/commands/concat.py:34-44 | an input's image reads all succeed exactly when every record whose new path is seen for the first time has a readable image |
| Concat.ReadFromNext | simpledataset/commands/concat.py:43-44 | past a record whose path was seen or whose image reads, the scan goes on with that path seen |
| Concat.Join | simpledataset/commands/concat.py:42 | a path's label list is of the dataset's kind and holds all its chunks' labels |
| Concat.JoinSingle | simpledataset/commands/concat.py:42 | one chunk of the dataset's kind is the path's whole list |
| Concat.JoinAppend | simpledataset/commands/concat.py:42 | joining two runs of chunks extends the first run's list by the second's: the chunks are extended in order |
| Concat.Records | simpledataset/commands/concat.py:48 | one record per key, in key order, of the dataset's kind, holding the key's chunks joined in order |
| Concat.CopyImages | simpledataset/commands/concat.py:57 | images are copied exactly when some input lies in a directory other than the output's |
| Concat.Merged | simpledataset/commands/concat.py:47 | every key of the merged dict has a list |
| Concat.Loaded | simpledataset/commands/concat.py:9-44 | a successful load yields the tables; a failing table load fails it |
| Concat.LoadedOk | simpledataset/commands/concat.py:9-44 | loading succeeds exactly when every table loads and no first read of an input's new path fails |
| Concat.LoadedFailsEarly | simpledataset/commands/concat.py:24-44 | once the first inputs fail to load, the whole list fails the same way |
| Concat.ConcatSpec | simpledataset/commands/concat.py:8-55 | the kind check fails first with ValueError; then the result fails exactly when loading fails (a label table, or the first read of an image under a new path), with that error |
| Concat.ConcatShape | simpledataset/commands/concat.py:15-55 | a result has the inputs' common kind, the merged table, one record per merged key, in order, and lies in the output directory |
| Concat.ConcatLabelNames | simpledataset/commands/concat.py:24-45 | the merged table is duplicate-free and as long as the inputs' tables together; input k's id x, moved up by the tables before it, names input k's name x with dots appended |
| Concat.AllVisitsPrefix | simpledataset/commands/concat.py:24 | the visits of the first inputs come first |
| Concat.VisitedRecord | simpledataset/commands/concat.py:34-45 | record i of input k is visited under its new path with its ids moved up by the tables before input k |
| Concat.Grouped | simpledataset/commands/concat.py:42-44 | both dicts have the same keys, each with a list and a hash |
| Concat.MergedKey | simpledataset/commands/concat.py:47-48 | each merged key is the first visited path with its hash and holds the lists of all paths with that hash, in first-visit order |
| Concat.MergedDistinctHashes | simpledataset/commands/concat.py:47 | no two merged keys have images with the same hash |
| Concat.MergedCovers | simpledataset/commands/concat.py:34-48 | every input record is represented by a merged key whose image has the same hash |
| Concat.RecordsCount | simpledataset/commands/concat.py:48 | a record holds as many labels as its path's chunks |
| Concat.RecordVisitsWeight | simpledataset/commands/concat.py:34-42 | visiting an input's records moves their labels and loses none |
| Concat.AllVisitsWeight | simpledataset/commands/concat.py:24-45 | all the visits together carry every input label once |
| Concat.ConcatLabelCount | simpledataset/commands/concat.py:24-48 | the result holds as many labels as the inputs together |
| Concat.ConcatStep | simpledataset/commands/concat.py:24-45 | one input extends the load exactly when its first-seen images read, otherwise it fails with the read's error; its table is merged onto the table so far and the offset grows by its length |
| Concat.VisitStep | simpledataset/commands/concat.py:34-45 | one input's visits follow the earlier ones, moved up by the earlier tables' length |
| Concat.AddRecord | simpledataset/commands/concat.py:42-44 | one `extend`, plus the hash when the path is new, is one visit; the hashed paths gain the new path |
| Concat.RecordStep | simpledataset/commands/concat.py:35-44 | a record whose image is read when its path is new extends the grouping by its visit |
| Concat.VisitRecord | simpledataset/commands/concat.py:35-44 | one record: a failing read of a new path's image is the scan's failure; otherwise the dicts grow by the record's visit and the scan goes on with the path seen |
| Concat.VisitLoop | simpledataset/commands/concat.py:34-44 | the record loop of one input fails exactly as the scan of its new paths' reads does, and otherwise adds its visits |
| Concat.InputLoop | simpledataset/commands/concat.py:24-45 | the input loop fails with the load's failure (a label table or an image read), or builds the merged table and the grouping of all visits |
| Concat.ConcatDatasets | simpledataset/commands/concat.py:8-57 | computes `ConcatSpec` and the `copy_images` flag |
| Defrag.UsedIds | simpledataset/commands/defrag.py:24 | the ids in use, ascending, each once |
| Defrag.UsedLabels | simpledataset/commands/defrag.py:8-20 | the update loop computes the ids in use |
| Defrag.DenseMap | simpledataset/commands/defrag.py:25 | the mapping's keys are the used ids, each sent to one of its positions |
| Defrag.DenseMapSorted | simpledataset/commands/defrag.py:24-25 | over the ascending used ids the k-th id goes to k, and the mapping is strictly increasing |
| Defrag.NamesOf | simpledataset/commands/defrag.py:30 | name k is `labels[used[k]]`, with Python's negative indexing; IndexError exactly when an id falls outside the table |
| Defrag.NewLabelNames | simpledataset/commands/defrag.py:27-30 | without ids in use the new table is empty and the old one is not read |
| Defrag.Defragged | simpledataset/commands/defrag.py:31-38 | records keep their image, position, coordinates and number of labels |
| Defrag.DefragSpec | simpledataset/commands/defrag.py:6-39 | a result has the same kind and the renumbered records, in the manifest's directory |
| Defrag.UsedIdsCount | simpledataset/commands/defrag.py:24 | there are as many used ids as distinct ids in use |
| Defrag.DefragTableSize | simpledataset/commands/defrag.py:30 | the new table has one name per id in use |
| Defrag.DefragErrors | simpledataset/commands/defrag.py:27-30 | with no id in use `defrag` succeeds; otherwise it fails exactly when the table cannot be produced or some id in use is outside it |
| Defrag.DefragDense | simpledataset/commands/defrag.py:31-38 | after `defrag` the ids in use are exactly 0 .. n-1, n being the number of ids in use before |
| Defrag.DefragNamesFollow | simpledataset/commands/defrag.py:25-30 | the renumbering keeps the order of the ids, and each new id's name is the old id's name |
| Defrag.UsedIdsOfDefragged | simpledataset/commands/defrag.py:24-38 | after `defrag` the used ids in order are 0, 1, ..., n-1 |
| Defrag.DefragTwice | simpledataset/commands/defrag.py:31-38 | defragmenting defragmented records changes nothing |
| Defrag.DefragDataset | simpledataset/commands/defrag.py:6-39 | the command's loops compute `DefragSpec` |
| Defrag.RelationAsWritten | simpledataset/commands/defrag.py:38 | the tuple as written has twelve slots |
| Defrag.RelationAsWrittenMisaligned | simpledataset/commands/defrag.py:38 | the written tuple is one slot too long, its slot 6 holds the object's old id, and the slots after the new object id are shifted one place |
| Defrag.RelationAsWrittenExample | simpledataset/commands/defrag.py:38 | a concrete relationship whose written tuple differs from the corrected one |
| FilterClasses.IncludeSet | simpledataset/commands/filter.py:12 | the include ids when any are given; otherwise every id from 0 to the maximum that is not excluded |
| FilterClasses.KeepLabels | simpledataset/commands/filter.py:19-24 | exactly the labels whose class is chosen, in order, and of the same kind |
| FilterClasses.Narrowed | simpledataset/commands/filter.py:19-24 | each record keeps its image and only its chosen labels |
| FilterClasses.KeptRecords | simpledataset/commands/filter.py:21-26 | no record is added and every kept record has a label |
| FilterClasses.KeptClassSet | simpledataset/commands/filter.py:18-27 | the ids in use afterwards are the ids in use before that are chosen |
| FilterClasses.KeepLabelsNonEmpty | simpledataset/commands/filter.py:21 | a narrowed list is non-empty exactly when some label has a chosen class |
| FilterClasses.KeptImage | simpledataset/commands/filter.py:18-27 | an image stays exactly when it has a label of a chosen class, and then with exactly those labels |
| FilterClasses.FilterSpec | simpledataset/commands/filter.py:9-29 | a failing maximum is a ValueError; otherwise it fails (RuntimeError) exactly for relationship datasets; a result has the same kind and no names |
| FilterClasses.FilterClassSet | simpledataset/commands/filter.py:12-27 | the ids left are those in use that are listed, or without a list those in use that are non-negative and not excluded |
| MapClasses.DictOf | simpledataset/commands/map.py:8 | a dict built from parsed entries: Ok exactly when every entry parses; the keys are the entries' keys |
| MapClasses.DictOfLastWins | simpledataset/commands/map.py:8 | the last entry with a key decides its value |
| MapClasses.ParsePair | simpledataset/commands/map.py:8 | both texts must be integers; ValueError otherwise |
| MapClasses.MappingOf | simpledataset/commands/map.py:8 | the mapping exists exactly when every pair parses; ValueError otherwise |
| MapClasses.MappingSources | simpledataset/commands/map.py:8 | exactly the sources of the pairs are mapped, each to the destination of the last pair naming it |
| MapClasses.MapSpec | simpledataset/commands/map.py:6-17 | a bad pair is a ValueError; relationship datasets are a RuntimeError; otherwise every record relabelled through the mapping, and no names |
| MapClasses.MapKeepsShape | simpledataset/commands/map.py:11-14 | mapping keeps every image, the number of labels and everything but the class ids |
| MapClasses.MapClassSet | simpledataset/commands/map.py:10-15 | each id in use afterwards is an id in use before, sent where the mapping sends it or left as it is |
| MapClasses.MapNothing | simpledataset/commands/map.py:8-15 | an empty mapping list changes no record |
| Summary.Tally | simpledataset/commands/summary.py:9-21 | the counter's keys are exactly the ids counted |
| Summary.TallyCounts | simpledataset/commands/summary.py:11-21 | each id's count is its number of occurrences in the class slots |
| Summary.TallySize | simpledataset/commands/summary.py:27 | the reported number of classes is the number of distinct ids in use |
| Summary.Distribution | simpledataset/commands/summary.py:31-32 | one line per id with its name and count, or IndexError exactly when some id has no name |
| Summary.DistributionIds | simpledataset/commands/summary.py:31 | the listing follows the sorted ids: its ids ascend and are exactly the ids in use |
| Summary.DistributionFailsEarly | simpledataset/commands/summary.py:31-32 | the first id without a name stops the listing |
| Summary.Summarize | simpledataset/commands/summary.py:25-32 | the report of a dataset whose maximum and table are known fails only with IndexError |
| Summary.SummarySpec | simpledataset/commands/summary.py:7-32 | a failure is a ValueError from the maximum, an AssertionError or ValueError from the table, or an IndexError from the listing |
| Summary.SummarizeHeader | simpledataset/commands/summary.py:25-28 | the report gives the kind, the number of images, the number of distinct ids in use and the maximum id |
| Summary.SummarizeIds | simpledataset/commands/summary.py:31 | the listed ids ascend, and an id is listed exactly when it is in use |
| Summary.SummarizeCounts | simpledataset/commands/summary.py:32 | each listed count is the id's number of occurrences |
| Summary.SummarizeErrors | simpledataset/commands/summary.py:30-32 | the listing fails exactly when some id in use has no name in the table |
| Summary.SummaryErrors | simpledataset/commands/summary.py:28-32 | the command fails exactly when the maximum fails, the table fails or some id in use has no name |
| Summary.CountClasses | simpledataset/commands/summary.py:9-21 | the counter loop computes `Tally` over the class-slot ids |
| Summary.PrintLines | simpledataset/commands/summary.py:31-32 | the listing loop computes `Distribution` |
| Summary.PrintSummary | simpledataset/commands/summary.py:7-32 | the command computes `SummarySpec` |
| Download.BeforeAt | simpledataset/commands/download.py:15 | the text before the first '@' holds no '@' |
| Download.BeforeAtPrefix | simpledataset/commands/download.py:15 | it is a prefix of the field, the whole field when there is no '@', and is followed by '@' otherwise |
| Download.RefsOf | simpledataset/commands/download.py:14-17 | a line must have exactly two fields (ValueError otherwise); it names its image's archive or file, and its label field's only when that field holds '.' |
| Download.ReferencedFiles | simpledataset/commands/download.py:13-17 | the scan succeeds exactly when every line has two fields; otherwise ValueError |
| Download.ReferencedMembers | simpledataset/commands/download.py:11-17 | a file is referenced exactly when some line names it |
| Download.ReferencedAppend | simpledataset/commands/download.py:13-17 | the references of concatenated manifests are the union of their references |
| Download.WrittenLineFields | simpledataset/commands/download.py:14 | a written manifest line `{image} {labels}` splits back into those two fields |
| Download.WrittenLineRefs | simpledataset/commands/download.py:14-17 | a written line references its image's archive or file, and its label field's only when that field holds '.' |
| Download.FileLines | simpledataset/commands/download.py:12-13 | the lines of the file, split at '\n', without a trailing empty piece |
| Download.FindReferencedFiles | simpledataset/commands/download.py:10-19 | a missing manifest is a FileNotFoundError; otherwise the scan of its lines |
| Download.FindReferencedFilesLoop | simpledataset/commands/download.py:13-17 | the line loop computes `ReferencedFiles` |

## Left out

- Image decoding, cropping and JPEG encoding are not modelled. The decoder is a map from image bytes to (width, height), and the encoded crop is a function parameter.
- Float coordinates are not modelled. Open Images' `int(round(float(text) * size))` is a `Pixels` parameter that returns a pixel or an error: ValueError for text that is not a number (or is "nan"), OverflowError for an infinite value. The parsing and rounding themselves are not modelled. COCO, HICO-DET and Visual Genome coordinates are integers.
- JSON, CSV and `.mat` decoding are not modelled: the readers take the decoded documents as datatypes.
- md5 is a `fingerprint` parameter of the concatenation. It is applied to the bytes `read_image_binary` reads; a failing read fails the concatenation.
- Zip compression modes, the byte layout of archives and UTF-8 decoding are not modelled. A file's bytes and its text are the same value.
- Logging, `print` and progress bars are left out, apart from the counts they report: the skip counts of the Open Images readers and the summary's report.
- `pathlib.relative_to` in `concat` is not computed: each input carries its base directory relative to the output directory.
- Every command is modelled from its already loaded dataset to the dataset it hands to the writer. The `DatasetWriter` calls at the end of `concat`, `defrag`, `filter` and `map` are not modelled. The calls in `concat` and `defrag` pass no directory, which the writer's constructor requires, and the call in `concat` also passes `copy_images`, which `write` does not accept. The writer itself is modelled separately.
- Defrag.DefragSpec: the `RuntimeError` for an unknown kind cannot happen, since `Kind` has three variants.
- Defrag.DefragSpec: the plan printout is modelled only through the table lookups it makes.
- Sets in the source (the used ids, the label-name sets, the referenced files) are modelled as sorted duplicate-free sequences or as Dafny sets.
- FilterClasses.FilterSpec: requires a well-kinded dataset, which every load produces. The warning for include ids above the maximum is not modelled.
- The network download, retry and URL rewriting of `download`, and all argparse `main` functions, are left out.
- Download.FileLines: splits at '\n' only. Python's text-mode file iteration also ends a line at a lone '\r' and at "\r\n" (universal newlines); those line ends are not modelled.
- The `draw`, `pack`, `sample`, `create`, `convert_to` and `convert_from` commands are not part of this model.
- Strings.Lower: lower-cases the ASCII letters only. Python's `str.lower()` maps every Unicode letter, so a non-ASCII name such as "É" keeps its case here.
- LoadBox: a non-ASCII object name keeps its case, because Strings.Lower maps ASCII letters only.
- LoadRelation: a non-ASCII predicate keeps its case, because Strings.Lower maps ASCII letters only.
- Concurrency and file timestamps play no part and are not modelled.

## Findings

| source | as written | input that shows it | evidently intended | confidence | as-written member | corrected member |
|---|---|---|---|---|---|---|
| simpledataset/commands/defrag.py:38 | the relationship branch builds `(m(x[0]), *x[1:5], m(x[5]), *x[5:10], m(x[10]))`; since `x[5:10]` starts at slot 5, the object's old id is copied in after its new id, giving a 12-slot tuple | subject `(3,0,0,1,1)`, object `(7,0,0,2,2)`, predicate 5, used ids [3, 5, 7]: written `[0,0,0,1,1,2,7,0,0,2,2,1]` instead of `[0,0,0,1,1,2,0,0,2,2,1]` | `*x[6:10]`: slots 0, 5 and 10 renumbered, every coordinate kept in its slot | not executed | Defrag.RelationAsWrittenMisaligned | Defrag.DefragDense |
