# AI social demo: scoring, moderation, money and feed, in Dafny

This project models the rule logic of a small Streamlit demo in which a user
posts a text and an optional image. The demo works in five steps:

- It scores the text with a heuristic built from length, diversity, a Turkish
  sentiment lexicon and an `@`/`#` bonus.
- It scores the image from luminance statistics.
- It blends the two scores with weights read from a JSON file.
- It moderates the post with a banned-term list and an image-quality
  threshold, and converts the score to money.
- It appends the record to the session log and ranks the accepted posts into
  a ten-item feed.

The weight file can also be "auto-updated": the text weight drifts up by 2%,
the image weight becomes its rounded complement, and the money coefficient
drifts up by 1%. Each value is clamped to its range and the result is written
back.

Modules, following the program's structure:

- `Wrappers`: `Option`, and `txt or ""`.
- `Numeric`: Python's `max(lo, min(hi, x))`, `int(x)` (truncation toward zero) and `round(x, 2)` (nearest hundredth, ties to even) over exact reals.
- `Text`: `str.strip()`, `str.lower()`, `str.split()` and the substring test `b in t`.
- `Scoring`: `score_text`, with its sub-scores, and the final blend of `score_image`.
- `Moderation`: `moderate` and the banned terms.
- `Money`: `to_money`.
- `Feed`: `rank_feed`, as a stable insertion sort by descending `(score, ts)` after the `mod == "ok"` filter.
- `Weights`:
  - the weight file store, as a class `WeightStore` whose `files` map stands for the file system;
  - `load_weights`, with the `setdefault` loop written as a loop;
  - `save_weights`;
  - `auto_update`, with its three in-place key updates.

  Beside each method there is a function giving its specification (`Load`, `Save`, `AutoUpdated`).
- `Pipeline`: the evaluation step of the "Analiz Et" handler, which covers the combined score, the verdict and the money.
- `App`: the properties of the pipeline. It also holds the session log as a class `Session` whose `items` sequence the `Analyze` method appends to, and the ten-item feed.

Without an image the handler uses image score 0. Since 0 is below the
moderation threshold of 15, every text-only post is sent to review, however
clean its text. `App.NoImageIsReview` and `App.EvaluateAccepted` state this
behaviour.

## Model

| member | source | states |
|---|---|---|
| Wrappers.OrEmpty | agents.py:58 | `txt or ""`: the text itself when present, the empty string when absent |
| Numeric.Clamp | agents.py:44 | `max(lo, min(hi, x))` lies in [lo, hi], is `x` inside the range and the nearer end outside it |
| Numeric.Trunc | agents.py:79 | `int(x)`: for non-negative x the largest whole number not above x, for negative x the smallest not below it |
| Numeric.RoundHalfEven | agents.py:45 | the nearest integer: strictly within 1/2 off a tie, and the even neighbour at a tie |
| Numeric.Round2 | agents.py:45 | `round(x, 2)` is within 0.005 of x |
| Numeric.Round2KeepsRange | agents.py:45 | rounding to hundredths maps [0.2, 0.8] into [0.2, 0.8] |
| Numeric.Round2OfHundredths | agents.py:111 | a whole number of hundredths is unchanged by `round(x, 2)` |
| Text.Strip | agents.py:58 | `strip()` yields the empty text or one that starts and ends with a non-space |
| Text.StripDropsOuterSpace | agents.py:58 | `strip()` removes only a whitespace prefix and a whitespace suffix; with `Text.Strip`'s ends this is exactly the leading and trailing whitespace |
| Text.StripEmptyIffAllSpace | agents.py:58-60 | `strip()` yields the empty text exactly when the text is all whitespace, so `if not t` catches exactly the blank inputs |
| Text.IsSpace | agents.py:58-62 | the whitespace class of `str.isspace()` that `strip()` and `split()` use; see `Text.StripDropsOuterSpace` and `Text.WordsAreMaximalRuns` |
| Text.LowerChar | agents.py:101 | one character lowered gives one or two characters, keeps its whitespace class, and leaves lowercase ASCII unchanged |
| Text.Lower | agents.py:58 | the lowered text is at least as long as the input and at most twice as long, and its first character is whitespace exactly when the input's is |
| Text.LowerOfAsciiUpper | agents.py:101 | capital ASCII letters are lowered position by position |
| Text.LowerOfAsciiLower | agents.py:101 | a text of lowercase ASCII letters is its own lowercase |
| Text.Words | agents.py:62 | `split()` yields non-empty tokens without whitespace, never more tokens than characters |
| Text.WordsAreMaximalRuns | agents.py:62-63 | the text is its tokens in order, separated by whitespace gaps that are non-empty between two tokens: the tokens are exactly the maximal non-space runs, so `n` is their number |
| Text.WordsEmptyIffAllSpace | agents.py:62 | `split()` finds no token exactly when the text is all whitespace |
| Text.Contains | agents.py:102 | `b in t`; see `Text.ContainsIffOccurs` |
| Text.ContainsIffOccurs | agents.py:102 | `b in t` holds exactly when `b` occurs in `t` at some offset |
| Text.NoLongerSubstring | agents.py:102 | a text never contains a longer one |
| Scoring.Normalize | agents.py:58 | `(txt or "").strip().lower()` is empty exactly when the text is missing or all whitespace |
| Scoring.CountIn | agents.py:75 | a lexicon hit count, with repetitions, is at most the number of tokens; it is 0 exactly when no token is in the lexicon, and the number of tokens exactly when all are |
| Scoring.Distinct | agents.py:64 | `len(set(words))`; see `Scoring.DistinctAtMostCount` and `Scoring.DiversityIsRatio` |
| Scoring.RawText | agents.py:62-78 | the unclamped `raw` of a normalised text; see `Scoring.ScoreTextUnclamped` |
| Scoring.LengthScore | agents.py:66-72 | the length sub-score lies in [0, 1]; its pieces are stated by `Scoring.LengthScoreShape` |
| Scoring.DiversityScore | agents.py:64-74 | the diversity sub-score lies in (0, 1]; on a text with tokens it is the ratio of `Scoring.DiversityIsRatio` |
| Scoring.MetaBonus | agents.py:76 | the `@`/`#` bonus; see `Scoring.MetaBonusIff` |
| Scoring.Blend | agents.py:78 | the weighted sum of the four sub-scores; see `Scoring.BlendInUnit` |
| Scoring.SentimentScore | agents.py:75 | the sentiment sub-score lies in [0, 1] |
| Scoring.ScoreText | agents.py:57-79 | the text score is a whole number in [0, 100], and 0 for a missing, empty or whitespace-only text |
| Scoring.NonBlankHasWords | agents.py:58-63 | a non-blank text has at least one token after normalisation |
| Scoring.LengthScoreShape | agents.py:66-72 | length sub-score: n/10 below 10 tokens, exactly 1 on 10..60 and nowhere else, the linear decay above 60, positive below 180 and 0 from 180 on |
| Scoring.DistinctAtMostCount | agents.py:64 | there are never more distinct tokens than tokens |
| Scoring.DiversityIsRatio | agents.py:64-74 | on a text with tokens the diversity sub-score is exactly distinct/n, positive and never cut by the `min` |
| Scoring.NoHitsIsNeutral | agents.py:75 | tokens outside both lexicons give no hits and the neutral sentiment 0.5 |
| Scoring.ExactTokenMatch | agents.py:54-55 | matching is by whole token: "güzel" counts, "güzel," does not, repeats count each time |
| Scoring.MetaBonusIff | agents.py:76 | the bonus is 1 exactly when the text contains `@` or `#`, and 0 otherwise |
| Scoring.BlendInUnit | agents.py:78 | the blend weights sum to 1, so sub-scores in [0, 1] give a raw score in [0, 1] |
| Scoring.ScoreTextUnclamped | agents.py:78-79 | for a non-blank text the raw blend is in [0, 1] and the score is the floor of 100 times it: the clamp never cuts |
| Scoring.ScoreImage | agents.py:93-94 | the final image blend over given statistics is a whole number in [0, 100] |
| Moderation.Flagged | agents.py:102 | `any(b in t for b in BAN)`; see `Moderation.BannedTermIsReview` and `Moderation.ShortTextIsClean` |
| Moderation.Moderate | agents.py:100-106 | a banned term in the lowercased text gives review; otherwise ok exactly when the image score is at least 15 |
| Moderation.OkIff | agents.py:100-106 | the verdict is ok exactly when the lowercased text holds no banned term and the image score is at least 15 |
| Moderation.BannedTermIsReview | agents.py:102-103 | any banned term contained in the lowercased text gives review, whatever the image score |
| Moderation.SubstringIsFlagged | agents.py:98-103 | "nefretlik" is sent to review for every image score, since "nefret" is a substring |
| Moderation.CapitalsAreFlagged | agents.py:101-103 | "NEFRET" is sent to review for every image score: the text is lowered first |
| Moderation.ShortTextIsClean | agents.py:98-102 | every banned term has at least five characters, so a shorter text is never flagged |
| Moderation.ImageThreshold | agents.py:104-106 | on a clean text, image score 14 gives review and 15 gives ok |
| Money.ToMoney | agents.py:110-111 | the amount is 0 for every score at or below 0, and non-negative when the coefficient is |
| Money.ToMoneyClose | agents.py:111 | the amount is within 0.005 of `max(0, score) * coef` |
| Money.ExactAmount | agents.py:111 | `to_money(100, 0.12)` is exactly 12.0 |
| Feed.KeyOf | agents.py:117 | the sort key is the record's own score and time stamp, a missing one counting as 0 |
| Feed.AtLeast | agents.py:117 | Python's tuple `>=` on `(score, ts)`; see `Feed.SortDescDescending` |
| Feed.Accepted | agents.py:116 | `it.get("mod") == "ok"`; see `Feed.SafeKeepsAccepted` |
| Feed.Safe | agents.py:116 | the filter returns no more posts than it is given, each with verdict ok |
| Feed.SafeKeepsAccepted | agents.py:116 | the filter keeps every copy of each post with verdict ok and no copy of any other post |
| Feed.SortDesc | agents.py:117 | `sorted(..., reverse=True)`; see `Feed.SortDescCorrect` |
| Feed.InsertPermutes | agents.py:117 | insertion adds exactly the inserted post |
| Feed.InsertDescending | agents.py:117 | insertion into a descending list keeps it descending |
| Feed.InsertKeepsKeyOrder | agents.py:117 | insertion keeps the posts of each key in order, the inserted one first among its own |
| Feed.SortDescPermutes | agents.py:117 | the sort returns a permutation of its input |
| Feed.SortDescDescending | agents.py:117 | the sort returns its input in non-increasing (score, ts) order |
| Feed.SortDescStable | agents.py:117 | the sort keeps posts with equal keys in input order |
| Feed.SortDescCorrect | agents.py:117 | the sort is a permutation, descending and stable |
| Feed.RankFeed | agents.py:115-117 | `rank_feed`; see `Feed.RankFeedCorrect` |
| Feed.RankFeedCorrect | agents.py:115-117 | the ranked feed is a permutation of the ok posts, holding each as often as the input does, contains a post exactly when the input has it with verdict ok, is descending by (score, ts) so that the later of two equal scores comes first, and is stable |
| Weights.SetDefault | agents.py:31 | `w.setdefault(k, v)` on the dictionary's value; see `Weights.FillDefaultsIsUnion` |
| Weights.FillDefaults | agents.py:29-31 | the `setdefault` loop; see `Weights.FillDefaultsIsUnion` |
| Weights.FillDefaultsIsUnion | agents.py:29-31 | the `setdefault` loop adds exactly the absent default keys and keeps every present key, extra keys included |
| Weights.Load | agents.py:21-32 | `load_weights` as a function of the files; see `Weights.LoadMissing`, `Weights.LoadExisting`, `Weights.LoadHasWeights` and `Weights.LoadIdempotent` |
| Weights.LoadMissing | agents.py:25-27 | on a missing file the defaults 0.6, 0.4, 0.12 are written and returned |
| Weights.LoadExisting | agents.py:21-32 | on an existing file the stored dictionary is returned with only the absent default keys added, and no file changes |
| Weights.LoadHasWeights | agents.py:21-32 | every load yields the three weights and leaves a file at the path |
| Weights.LoadIdempotent | agents.py:21-32 | two loads with no write between return the same dictionary, and the second changes no file |
| Weights.Save | agents.py:34-36 | `save_weights` as a function of the files; see `Weights.WeightStore.SaveWeights` |
| Weights.Drift | agents.py:44-47 | the three assignments of `auto_update`; see `Weights.DriftInRange` and `Weights.DriftMonotone` |
| Weights.DriftInRange | agents.py:43-47 | for any start, the text weight ends in [0.2, 0.8], the image weight is the rounded complement and in [0.2, 0.8], and the money coefficient is in [0.05, 0.5]; no other key changes |
| Weights.DriftMonotone | agents.py:44-47 | from in-range weights the drift never lowers the text weight or the money coefficient |
| Weights.Decimal | agents.py:50 | the decimal digits of a natural number: at least one, each in '0'..'9' |
| Weights.VersionTag | agents.py:50 | `f"v{int(time.time())}"` for a given clock value |
| Weights.AutoUpdated | agents.py:38-50 | `auto_update` as a function of the files and the clock; see `Weights.AutoUpdatePersists` and `Weights.RepeatedUpdates` |
| Weights.AutoUpdatePersists | agents.py:38-50 | the file afterwards holds exactly the returned weights, no other file changes, and the weights are in range |
| Weights.UpdateStep | agents.py:42-49 | one update from in-range stored weights keeps them in range without lowering the text weight or the money coefficient |
| Weights.RepeatedUpdates | agents.py:38-50 | after any number of updates from in-range weights they stay in range, and the text weight and money coefficient have not decreased |
| Weights.WeightStore.SaveWeights | agents.py:34-36 | the dictionary replaces the file at the path and nothing else |
| Weights.WeightStore.LoadWeights | agents.py:21-32 | the result and the new files are those of the `Load` specification |
| Weights.WeightStore.AutoUpdate | agents.py:38-50 | the returned version and weights and the new files are those of the `AutoUpdated` specification |
| Pipeline.Evaluate | app.py:40-49 | text and image scores in [0, 100]; image score 0 without an image; the money is exactly `to_money` of the combined score, so 0 when it is at most 0; the verdict is `moderate` of the text and the image score |
| Pipeline.Combined | app.py:47 | `int(alpha * s_text + beta * s_img)`; see `App.BlendTruncInRange` |
| App.EvaluateNoImage | app.py:41-48 | without an image the combined score uses image score 0 and the verdict is review |
| App.CombinedNoImage | app.py:47 | with image score 0 the image weight drops out of the combined score |
| App.NoImageIsReview | app.py:41-48 | without an image the combined score is `int(alpha * s_text)` alone and the post always goes to review |
| App.EvaluateAccepted | app.py:40-48 | a post is accepted exactly when it has an image scoring at least 15 and a clean text |
| App.BlendTruncInRange | app.py:47 | two scores in [0, 100] under non-negative weights summing to less than 1.01 truncate into [0, 100] |
| App.BalancedSum | agents.py:44-45 | drifted weights are non-negative and sum to at most 1.005 |
| App.NearUnitScoreInRange | app.py:47 | under non-negative weights summing to less than 1.01 the combined score is in [0, 100] |
| App.DefaultScoreInRange | app.py:47 | under the default weights 0.6 and 0.4 the combined score is in [0, 100] |
| App.UpdatedWeightsNearUnit | agents.py:44-47 | the weights an update leaves are ones under which the combined score stays in [0, 100] |
| App.Record | app.py:54-60 | the record `{text: txt or "", score, mod, ts, img}`; see `App.Session.Analyze` |
| App.TopFeed | app.py:96 | `rank_feed(items)[:10]`: at most ten posts, all accepted and from the log, descending, and exactly the first min(10, n) of the ranked feed |
| App.Session.Analyze | app.py:54-60 | the evaluation is that of `Evaluate`, and exactly one record `{text: txt or "", score, mod, ts, img}` is appended, with all earlier records unchanged |
| App.Session.Shown | app.py:96 | the feed shows at most ten posts, each accepted |

## Left out

- Reading and writing JSON, file handles and encodings (agents.py:23-24, 35-36): the file system is a map from path to a dictionary of numbers, and an absent path is a file whose opening raises `FileNotFoundError`.
- Malformed JSON, and a file that holds something other than an object of numbers: the source does not catch these (only `FileNotFoundError` is handled), so the model defines no behaviour for them.
- `Weights.Drift`: requires the three keys. After `load_weights` they are always present; the source would raise `KeyError` without them.
- Floating point: values are exact reals. `Numeric.Round2` rounds the exact value half to even. Python's `round` works on the binary value of the float, so results can differ at ties that a float cannot represent exactly.
- Floating point in `int(...)` (agents.py:79, app.py:47): where the exact-real value is a whole number, the float product can fall just below it and `int` then gives one less than `Numeric.Trunc` does (in binary floating point `0.29 * 100` is 28.999999999999996, so `int` gives 28 where the exact value gives 29).
- `Text.Lower`: lowers ASCII, the Latin-1 capitals and Ğ, Ş and İ (to "i" plus a combining dot, as Python does). Other Unicode capitals, such as Greek or Cyrillic, are left unchanged, unlike in Python. Its contract states only lengths and the first character's class.
- `score_image` (agents.py:83-92): the greyscale conversion, edge filter and image statistics are Pillow calls. The model takes the three statistics as given reals (`Scoring.LumaStats`) and models only the final blend.
- `image_to_video` (agents.py:121-165): MoviePy and NumPy calls, video encoding and file output.
- `time.time()`: the clock behind the version tag (agents.py:50) and the record time stamp (app.py:58) is an input parameter.
- The Streamlit interface: page set-up, buttons, columns, the results table with its text truncation, the download button, `st.session_state` across reruns, and the Pillow compatibility patch (app.py:4-10).
- `rank_feed` does not modify its input list. Every model function is pure, so this holds by construction and is not stated separately.
