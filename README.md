# Safety-risk dashboard core, modelled in Dafny

This project models the part of the Korean Streamlit safety dashboard (`app_kor.py` with the tables of `config.py`) that decides what the page shows. The dashboard is a mock of a vision-language model. It shows four CCTV channels, and each channel gets an alarm result. The modelled logic covers:

- **Classifier**: the image key is hashed with SHA-256. The first eight hex digits of the digest, read as a number, are reduced modulo 51 and offset by 45 to give a score. The score is then banded: 75 and above is High, 60 and above is Medium, otherwise Low.
- **Result construction**: a result is the level and score, the level's Korean description and the default report.
- **Korean label lookup**: the table's label for the three known levels, the input itself for any other string.
- **Alarm style**: the CSS class and icon of the alarm box, chosen by level.
- **Image-path search and per-channel image selection**: each channel shows its own file if it exists, else the first existing fallback candidate. When no candidate exists, the page stops after its header with an error message and shows no channel.
- **Result assembly with the CCTV2 override**: every channel is classified from `"<image base name>-<channel id>"`, except CCTV2, which always shows a fixed Medium/68 literal.

The modules are:

- `Wrappers` (`wrappers.dfy`): the `Option` type, standing for Python's `X | None`.
- `Config` (`config.dfy`): the tables of `config.py` as constants.
- `Hex` (`hex.dfy`): lowercase hex digests, `int(text, 16)` and its inverse.
- `Risk` (`risk.dfy`): the classifier, the result record, the Korean label, the alarm style and the override literal. These are pure functions, as in the source.
- `Dashboard` (`dashboard.dfy`): the path search, the image selection and the results loop. These are methods with loops, as in the source, each proved against a function or against its full postcondition.

SHA-256 is a parameter `sha256: string -> HexDigest`. Every contract holds for any function that returns 64 lowercase hex digits.

Existence of a file is a set `existing`: the snapshot of paths for which `os.path.exists` holds during one render.

## Model

| member | source | states |
|---|---|---|
| Risk.PrefixValue | app_kor.py:87 | the first eight hex digits of a digest read as a number are below 16^8 = 2^32 |
| Risk.ScoreOf | app_kor.py:87 | every digest's score lies in [45, 95] and is congruent, after removing the offset 45, to the prefix value modulo 51 |
| Risk.LevelOf | app_kor.py:89-93 | High iff score >= 75, Medium iff 60 <= score < 75, Low iff score < 60; the level is always a key of the label and description tables, so neither lookup misses |
| Risk.RiskFromImageName | app_kor.py:85-93 | the score is in [45, 95] and is the score of the name's digest; the level is that score's band |
| Risk.BuildMockResult | app_kor.py:99-108 | level and score are the classifier's output for the name; the description is the level's entry of the Korean description table; the report is the default template |
| Risk.ConsistentIsDeterminedByScore | app_kor.py:99-108 | two classifier-shaped results with the same score are equal: description and report depend on the level alone |
| Risk.SameLevelSameDescription | app_kor.py:106 | two names whose results have the same level get identical descriptions |
| Risk.LevelIsMonotone | app_kor.py:89-93 | a higher score never gets a lower level |
| Risk.DigestWithPrefix | app_kor.py:87 | for every value below 2^32 there is a digest whose prefix reads as that value |
| Risk.EveryScoreIsReachable | app_kor.py:87 | the score range is tight: every score from 45 to 95 is the score of some digest |
| Risk.EveryLevelIsReachable | app_kor.py:89-93 | each of High, Medium and Low is the level of some digest |
| Risk.ToKoreanLevel | app_kor.py:96-97 | High, Medium and Low map to 높음, 보통 and 낮음; every other string is returned unchanged |
| Risk.KoreanLabelsAreDistinct | app_kor.py:96-97 | the three known levels get three different labels |
| Risk.AlarmStyleFor | app_kor.py:338-346 | the high style iff the level is High, the medium style iff Medium, the low style iff neither, unknown strings included |
| Risk.AlarmStyleFollowsScore | app_kor.py:338-346 | for a classified score the alarm style follows the score bands 75 and 60 |
| Risk.OverrideResult | app_kor.py:410-415 | the override is level Medium, score 68, the override description and the default report; 68 lies in the 60 to 74 band the source comment asks for, and the literal is a result the classifier could have produced for a Medium score |
| Hex.ParseHex | app_kor.py:87 | the value of an n-digit hex string is below 16^n |
| Hex.ToHex | app_kor.py:87 | the width-digit text of a value is width lowercase hex digits |
| Hex.ParseToHex | app_kor.py:87 | reading back the hex text of a value gives the value |
| Hex.ToHexParse | app_kor.py:87 | writing a hex string's value back at its own width gives the string |
| Dashboard.Basename | app_kor.py:119 | the base name is a suffix of the path containing no '/', and the character before it, if there is one, is '/': the text after the last separator |
| Dashboard.BasenameIsLastSegment | app_kor.py:119 | the base name contains no '/', and the character before it, if there is one, is '/' |
| Dashboard.BasenameOfJoin | app_kor.py:119 | the base name of "dir/name" is name when name has no '/' |
| Dashboard.ChannelKey | app_kor.py:407-417 | the key splits back into its parts: the image name, then '-', then the channel id |
| Dashboard.ChannelKeyIsInjective | app_kor.py:417 | for channel ids of equal length, two equal keys "<name>-<id>" come from the same name and id |
| Dashboard.FirstExistingIsEarliest | app_kor.py:67-71 | the search returns None iff no path exists; otherwise it returns the path at an index that exists and before which no path exists |
| Dashboard.FirstExistingPath | app_kor.py:67-71 | the loop with early return computes the search: the earliest existing path, or None exactly when none exists |
| Dashboard.LoadCctvImages | app_kor.py:111-120 | None iff no fallback candidate exists; otherwise one entry per configured channel, holding the channel's own path if that exists, else the first existing candidate, together with that path's base name; every chosen path exists |
| Dashboard.AssembleResults | app_kor.py:406-417 | the key set is exactly the channel ids; CCTV2 is the override literal whatever the classifier gives; every other channel is the built result of "<base name>-<id>"; nothing else is in the map |
| Dashboard.AssembledResultsAreConsistent | app_kor.py:406-417 | every assembled entry, the override included, has a level matching its score's band and that level's description |
| Dashboard.ChannelIds | app_kor.py:406 | the id list has one id per table entry, in table order; its ids are exactly the table's id set, and they are pairwise distinct when the table's ids are |
| Dashboard.ConfiguredChannels | config.py:13-18 | the configured channel ids are CCTV1 to CCTV4, pairwise distinct, in that order |
| Dashboard.NoConfiguredCandidate | config.py:7-11 | no fallback candidate exists exactly when none of the three configured files exists |
| Dashboard.Case1Key | app_kor.py:417 | a channel showing assets/case1.png is classified from the key "case1.png-CCTV1" |
| Dashboard.RenderPass | app_kor.py:401-417 | with the configured tables: `None` (the page stops after its header with an error message and shows no channel) iff none of the three candidates exists; otherwise images and results for exactly CCTV1 to CCTV4, CCTV2 the override, every other channel the classification of its shown file's key; each channel shows its own configured file if that exists and the first existing candidate otherwise, and every shown file exists; CCTV1 with its own file present is classified from "case1.png-CCTV1" |

## Left out

- SHA-256 itself: it is a parameter. The UTF-8 encoding that precedes it is part of that parameter.
- Streamlit rendering: page config, markdown, columns, containers, images, `st.error` and `st.stop`. `RenderPass` returning `None` stands for the path where the page header is drawn, then an error message, then `st.stop()` (app_kor.py:391-404).
- CSS injection, the SVG robot, base64 encoding and the page icon. These are presentation only.
- `Image.open(...).convert("RGB")`: a loaded image is represented by the path it was read from.
- Joining the paths to `BASE_DIR`: paths are kept relative.
- The real `os.path.exists`: it is the snapshot set `existing`, so files appearing or disappearing during a render are not modelled.
- `os.path.basename` is modelled for '/'-separated paths only (posix).
- The dictionary comprehension at app_kor.py:407: the loop that follows overwrites every one of its entries, so the model starts the loop from an empty map and states only the final map.
- DefaultReportTemplateKo: only the heading line of the Korean report template is reproduced. The body is display text that no modelled operation inspects.
- The English text tables, the HTML templates and their `.format` substitutions. These are display text with no contract.
- ParseHex: reads lowercase hex digits only. Python's `int(text, 16)` also accepts uppercase digits, signs, whitespace and underscores, which a `hexdigest()` prefix never contains.
- Distinct image names are not proved to give distinct results: with the hash a parameter, it may map every name to one digest. `Risk.EveryLevelIsReachable` shows only that banding a digest's score is not constant.
- Dashboard.ChannelKeyIsInjective: holds only for ids of equal length, as the configured ones are. For ids of different lengths two keys can coincide ("a-b" + "-c" against "a" + "-b-c").
- The alarm icons at app_kor.py:340-346 are stored in the file as UTF-8 bytes misread as Mac Roman text. The model keeps the characters as written, and the intended emoji U+1F6A8, U+26A0 U+FE0F and U+2705 appear only in a comment.
