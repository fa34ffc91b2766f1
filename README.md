# Credit-card fraud detection: feature pipeline and inference tab

This project models the logic at the centre of a credit-card fraud detection
dashboard, with proofs about that logic:

- **Training.** Two training scripts turn a transaction table into features:
  - they derive `age`, `hour`, `is_weekend` and `amt_per_hour_ratio`;
  - they drop a fixed list of columns and split off the `is_fraud` target;
  - they label-encode `category`, `gender` and `state`;
  - they standardize the five numerical columns;
  - they save an artifact dictionary holding the classifier, the scaler, the encoders and the column lists. One script also saves a `model_info` summary.

  The Random Forest script also checks its test accuracy and recall against fixed targets.
- **Loading.** The app loads the artifact dictionary and starts each session with an empty prediction history.
- **Inference.** The fraud-detection tab turns one transaction entered in a form into the feature row the classifier was trained on:
  - it encodes the three choices;
  - it builds an eight-column frame;
  - it reorders the frame to the saved feature columns;
  - it rescales the numerical columns in place.

  It then classifies the row and appends a record to the session's history. It also computes four risk badges and an ordered list of risk factors.

Each file is one module:

| file | module |
|---|---|
| `errors.dfy` | the exceptions and a `Result` type |
| `seqs.dfy` | sequence helpers for column lists |
| `features.dfy` | the row-level derived features |
| `scaling.dfy` | standard scaling |
| `label_encoding.dfy` | label encoders as sorted class lists |
| `frames.dfy` | a `Frame` class, the part of a pandas data frame the scripts use: column lookup, in-place assignment, `drop`, selection and in-place scaling |
| `preprocessing.dfy` | the preprocessing pass both scripts share |
| `training_model.dfy` | the Random Forest script, with the target check and `model_info` |
| `fraud_training.dfy` | the XGBoost script |
| `artifacts.dfy` | the artifact dictionary and the app's loading block |
| `fraud_detection.dfy` | the inference tab and the session history |
| `agreement.dfy` | how training and inference agree |

How the model represents the system's parts:

- **Data frame.** It is a class whose fields the scripts update in place. Assigning a column and scaling columns are methods that change the frame. `drop` and selecting a list of columns build a fresh frame.
- **Loops.** The encoder loop and the scaling of the numerical columns are loops with invariants. Each is proved against a function that states what the finished loop leaves behind.
- **Risk factors.** The factor list is built by successive appends.
- **History.** The history is a `seq` field of a `Session` class that `Append` extends.
- **Classifier.** It is opaque: a datatype holding two function values, `predict` and `predictProba`.
- **Scaler.** It is its fitted parameters: one (mean, positive scale) pair per column.
- **Label encoder.** It is its strictly sorted list of distinct classes. A value's code is its position in that list.

## Design and code

The pipeline's design description asks for more than the code does. The model follows the code:

- **Column mismatches.** The design wants the artifact checked for column mismatches at load time. The code only notices a missing feature column or a scaler of the wrong width at the first analysis. `FraudDetection.FeatureVector` raises these errors there, as a `KeyError` or a width mismatch.
- **Confidence.** The design defines confidence as the larger of the two probabilities. The code reads the probability at the predicted class's position, and so does the model. For a 0/1 class it is the probability of the label shown (`ConfidenceMatchesLabel`). A class of -1 would be read from the end of the pair (`NegativeClassReadsFromEnd`). Whether that position holds the larger probability depends on the classifier, which is opaque here.
- **Failed loads.** The design wants a dedicated error for a failed load. The code indexes the dictionary and raises a `KeyError` for a missing entry, and so does `Artifacts.Load`.
- **Out-of-range input.** The design wants an hour outside 0..23 rejected with a validation error. The code relies on the form's widget bounds, so the model types the hour as 0..23, the age as 18..100 and the amount as 0.01..100000.
- **Zero-variance columns.** The design requires every standard deviation to be non-zero. The scaler replaces a zero standard deviation by 1, so every scale in the model is positive.

## Model

| member | source | states |
|---|---|---|
| Seqs.Without | training_model.py:77 | dropping a set of names keeps exactly the names outside the set and keeps them distinct |
| Seqs.WithoutKeepsOrder | training_model.py:77 | in a list without repeated names, the names kept by a drop stand in the order they had before it |
| Seqs.WithoutNothing | training_model.py:77 | with `errors='ignore'`, dropping names none of which is present leaves the column list as it is |
| Seqs.WithoutTwice | training_model.py:77-90 | dropping the listed columns and then the target is dropping both at once |
| Seqs.WithColumn | training_model.py:53-66 | assigning a column keeps the existing columns in place, adds the name at the end when it is new, and keeps the names distinct |
| Features.AmtPerHourRatio | tabs/fraud_detection.py:128 | the ratio times `hour + 1` is the amount; for a positive amount it is positive, at most the amount, and below it after hour 0 |
| Features.RatioFallsWithHour | training_model.py:66 | for a fixed positive amount the ratio strictly falls as the hour grows |
| Features.RatioBounds | fraud_training.py:38 | a positive amount's ratio lies between a 24th of the amount and the amount |
| Features.IsWeekend | training_model.py:62 | the flag is 0 or 1, and 1 exactly on day 5 or 6 |
| Features.AgeInYears | training_model.py:52-53 | the birth year plus the age is the current year; a birth year not after the current year gives a non-negative age |
| Scaling.Standardize | training_model.py:105-107 | the scaled value times the scale plus the mean is the value; it is positive (zero) exactly when the value is above (at) the mean |
| Scaling.Unstandardize | training_model.py:107 | the restored value minus the mean is the scaled value times the scale |
| Scaling.UnstandardizeStandardize | training_model.py:107 | scaling can be undone, so the transform loses nothing |
| Scaling.StandardizeMonotone | tabs/fraud_detection.py:151 | scaling keeps the strict order of values |
| LabelEncoding.BelowIrreflexive | training_model.py:99-100 | no string is below itself in the code-point order of class lists |
| LabelEncoding.BelowTransitive | training_model.py:99-100 | the order of class lists is transitive |
| LabelEncoding.BelowTotal | training_model.py:99-100 | any two different strings are ordered one way or the other |
| LabelEncoding.SortedDistinct | training_model.py:99-100 | a sorted class list has no repeated class |
| LabelEncoding.Insert | training_model.py:100 | adding a value to a sorted class list keeps it sorted and adds exactly that value |
| LabelEncoding.Fit | training_model.py:100 | the fitted classes are sorted and are exactly the column's values |
| LabelEncoding.Transform | tabs/fraud_detection.py:131-133 | a value has a code exactly when it is a class, and the class at that code is the value |
| LabelEncoding.InverseTransform | tabs/fraud_detection.py:32 | a code decodes exactly when it is a position in the class list |
| LabelEncoding.DecodeEncode | tabs/fraud_detection.py:131-133 | decoding a known value's code gives the value back |
| LabelEncoding.EncodeDecode | tabs/fraud_detection.py:131-133 | for a fitted (sorted) encoder, encoding the class at a code gives that code back |
| LabelEncoding.FitCodes | training_model.py:100 | every value of the column gets a code under the fitted classes, and the class at that code is the value |
| LabelEncoding.FitCodesConsistent | fraud_training.py:68 | each value's code is what `transform` gives it, and two rows get the same code exactly when they hold the same value |
| Frames.FirstMissing | tabs/fraud_detection.py:148 | nothing is missing exactly when every name is a column; otherwise the name reported is listed and absent |
| Frames.FirstNonNumeric | tabs/fraud_detection.py:151 | none is reported exactly when every listed column is numeric; otherwise the reported column is listed and not numeric |
| Frames.Restrict | tabs/fraud_detection.py:148 | the selection holds exactly the listed columns that exist, each unchanged |
| Frames.StandardizeCells | training_model.py:107 | a scaled column has the same length and holds each cell standardized with the column's parameters |
| Frames.ScaleError | tabs/fraud_detection.py:151 | scaling fails exactly when a listed column is missing or not numeric or the scaler has another width, and then with a `KeyError`, a non-numeric or a width error |
| Frames.ScaledColumns | training_model.py:107 | scaling keeps the set of columns |
| Frames.ScaledColumnsAt | training_model.py:107 | a listed column is standardized with the parameters at its own position in the list; every other column is left exactly as it was |
| Frames.ScaledColumnAtIndex | fraud_training.py:75 | the column at position k of the list is standardized with the k-th parameters |
| Frames.ScaledColumnsStep | training_model.py:107 | scaling one more listed column extends the scaled prefix by that column |
| Frames.RowVector | tabs/fraud_detection.py:154-155 | the row handed to the classifier has one number per column, in column order, equal to that column's cell |
| Frames.Frame.constructor | tabs/fraud_detection.py:136-145 | a frame built from equally long columns holds exactly those columns |
| Frames.Frame.Column | training_model.py:91 | `df[name]` gives the column exactly when the name is a column, and a `KeyError` naming it otherwise |
| Frames.Frame.SetColumn | training_model.py:53 | `df[name] = values` replaces or appends the column, leaves the other columns as they were and keeps the frame well formed |
| Frames.Frame.Drop | training_model.py:77 | `drop` gives a fresh frame without the listed columns, the rest in order; an absent name is skipped with `errors='ignore'` and raises a `KeyError` otherwise |
| Frames.Frame.Select | tabs/fraud_detection.py:148 | `df[names]` gives a fresh frame whose columns are exactly the names in that order, or a `KeyError` for the first missing name |
| Frames.Frame.ScaleColumns | tabs/fraud_detection.py:151 | in place, the listed columns are standardized one after the other and the column order is kept; on an error the frame is unchanged |
| Preprocessing.ColumnListsDistinct | training_model.py:94-105 | the categorical and the numerical column lists have no repeated name |
| Preprocessing.CategoricalApart | training_model.py:94-105 | a categorical column is not derived, not scaled and not the target |
| Preprocessing.NumericalApart | training_model.py:94-105 | a numerical column is not categorical and not the target |
| Preprocessing.EngineeredColumns | training_model.py:53-66 | after the four assignments the columns are the old ones followed by the new derived names, distinct when the old ones are |
| Preprocessing.EngineeringError | training_model.py:51-66 | feature engineering succeeds exactly when `dob` and the transaction time are dates and `amt` is numeric |
| Preprocessing.AgeCells | training_model.py:53 | the age column is numeric and as long as the birth dates |
| Preprocessing.HourCells | training_model.py:58 | the hour column is numeric and as long as the timestamps |
| Preprocessing.WeekendCells | training_model.py:62 | the weekend column is numeric and as long as the timestamps |
| Preprocessing.RatioCells | training_model.py:66 | the ratio column is numeric and as long as the timestamps |
| Preprocessing.EngineeredData | training_model.py:51-66 | the derived columns are added, every other column is unchanged, and in every row the four derived values are the row's age, hour, weekend flag and ratio |
| Preprocessing.EngineerFeatures | training_model.py:51-66 | in place, the frame gains the four derived columns at the end in assignment order, or the step raises the first error it meets |
| Preprocessing.Texts | training_model.py:100 | `astype(str)` of a text column gives its strings, row by row |
| Preprocessing.CodeCells | training_model.py:100 | the encoded column is numeric and as long as the original |
| Preprocessing.FittedEncoders | training_model.py:94-102 | an encoder is stored exactly under each listed column the table has, fitted on that column's values |
| Preprocessing.EncodedColumns | training_model.py:94-102 | each listed column present is replaced by its codes, and every other column is untouched |
| Preprocessing.EncodedColumnDecodes | training_model.py:94-102 | each code written by the loop decodes, under the stored encoder, to the original text |
| Preprocessing.FittedEncodersAre | fraud_training.py:65-69 | the encoder stored under a column is the one fitted on that column |
| Preprocessing.EncodeCategoricals | training_model.py:94-102 | the loop leaves the table encoded and the encoder dictionary filled as the two functions above state |
| Preprocessing.ScaledNumerical | training_model.py:105-107 | scaling the numerical columns keeps the set of columns |
| Preprocessing.FeatureColumns | training_model.py:229 | the saved feature columns are the raw and derived columns outside the drop list, never the target, and distinct |
| Preprocessing.KeptData | training_model.py:77 | the kept table holds exactly the raw and derived columns outside the drop list, and every raw column that is not derived is unchanged |
| Preprocessing.PrepareError | training_model.py:51-107 | a feature-engineering error is raised first, then a `KeyError` for a missing target, then a scaling error; a scaler of the numerical columns' width never gives a width error |
| Preprocessing.FeatureData | training_model.py:90-107 | the feature table has exactly the kept columns except the target |
| Preprocessing.FeatureEncoders | training_model.py:94-102 | encoders are stored only under categorical names, each a sorted class list |
| Preprocessing.KeptEncodable | training_model.py:77-100 | after engineering and dropping, every categorical column left is still text |
| Preprocessing.DropAndSplit | training_model.py:90-91 | the drop list is removed ignoring absent names, then the target is split off, or a `KeyError` is raised if it is gone |
| Preprocessing.EncodeAndScale | training_model.py:94-107 | the encoders are fitted, then the numerical columns of the encoded table are scaled, or the scaling error is raised |
| Preprocessing.Prepare | training_model.py:51-107 | the whole pass fails exactly with the first error it meets; otherwise it gives the saved feature columns, the feature table, the encoders and the target column |
| Preprocessing.ScalingKeepsCodes | training_model.py:105-107 | scaling leaves each encoded categorical column exactly as the encoder loop wrote it |
| Preprocessing.NumericalColumnsScaled | fraud_training.py:73-75 | the k-th numerical feature column is the column kept from engineering, standardized with the k-th scaler parameters |
| Preprocessing.EncoderKeys | training_model.py:94-102 | the encoder keys are exactly the categorical columns the raw table has and the drop list spares |
| Artifacts.Get | app.py:53-57 | a lookup succeeds exactly when the key is present with the right kind of value; a missing key is a `KeyError` |
| Artifacts.FirstUnfit | app.py:53-57 | the position of the first key whose lookup fails: every key before it is found with the right kind of value, and the key at it is not |
| Artifacts.Load | app.py:52-60 | loading succeeds exactly when the five required entries are present with the right kind of value; a `KeyError` names a required entry that is absent; `model_info` falls back to an empty summary |
| Artifacts.LoadFirstFailure | app.py:52-57 | a failed load raises the error of the first required entry, in reading order, that is absent or of the wrong kind; with all five in place only the summary can fail |
| Artifacts.Bundle | training_model.py:225-242 | the dictionary holds each component under its name; it has exactly the six saved keys, plus `model_info` when a summary is given |
| Artifacts.LoadBundle | app.py:52-60 | loading a saved dictionary gives back the classifier, scaler, encoders and column lists unchanged, and the summary or an empty one |
| TrainingModel.AccuracyStatus | training_model.py:190 | the accuracy check passes exactly when the accuracy is at least 0.85 and fails exactly when it is below |
| TrainingModel.RecallStatus | training_model.py:191 | the recall check passes exactly when the recall is at least 0.80 and fails exactly when it is below |
| TrainingModel.StatusMonotone | training_model.py:187-191 | a better metric never turns a pass into a failure |
| TrainingModel.ModelInfo | training_model.py:232-241 | the summary has exactly its eight keys, holding the algorithm name, 200 trees, the five metrics and the training time |
| TrainingModel.Run | training_model.py:51-242 | the script fails exactly when preprocessing fails; otherwise its dictionary has the six saved keys plus `model_info`, and the app loads from it the model, scaler, fitted encoders, feature columns, numerical columns and summary |
| FraudTraining.DropListsAgree | fraud_training.py:41-47 | the base drop list with `city` appended is the other script's drop list |
| FraudTraining.DropList | fraud_training.py:41-47 | appending `city` to the list gives the full drop list |
| FraudTraining.Run | fraud_training.py:26-150 | the script fails exactly when preprocessing fails; otherwise its dictionary has exactly the six saved keys and no `model_info`, so that once the file is moved to the path the app reads, the app loads an empty summary |
| FraudDetection.Encode | tabs/fraud_detection.py:131-133 | a choice encodes exactly when its encoder exists and knows it, and the code decodes back to the choice; otherwise a `KeyError` or unseen-label error is raised |
| FraudDetection.EncodeInputs | tabs/fraud_detection.py:131-133 | the three choices encode exactly when each is among its encoder's classes, and each code decodes back to its choice |
| FraudDetection.OfferedChoicesEncode | tabs/fraud_detection.py:32-72 | a choice the form offers always encodes, to the code `transform` gives it |
| FraudDetection.Offered | tabs/fraud_detection.py:32-72 | a choice counts as offered exactly when its encoder exists and `transform` gives it a code |
| FraudDetection.InputValue | tabs/fraud_detection.py:136-145 | every input value is non-negative; the ratio times `hour + 1` is the amount; every value other than the amount and the ratio is a whole number |
| FraudDetection.FeatureValue | tabs/fraud_detection.py:148-151 | a numerical feature's value, unscaled with the parameters at its position, is the input value; any other feature's value is the input value |
| FraudDetection.InputRow | tabs/fraud_detection.py:136-145 | the input frame has exactly the eight named columns, one cell each, holding the codes, the amount, the age, the hour, the weekend flag and the ratio |
| FraudDetection.FeatureVector | tabs/fraud_detection.py:148-151 | the row succeeds exactly when every feature column is an input column, every numerical column is a feature and the scaler has their width; position k holds feature k's value, standardized with the parameters of its position among the numerical columns when it is one |
| FraudDetection.ScaledInputEntry | tabs/fraud_detection.py:151 | each reordered and rescaled column holds that feature's single value |
| FraudDetection.ScaledInputRow | tabs/fraud_detection.py:148-151 | every reordered and rescaled column holds that feature's single value |
| FraudDetection.UnscaledReachClassifier | tabs/fraud_detection.py:151 | scaling leaves every feature outside the numerical columns as built, the encoded choices included |
| FraudDetection.ProbaAt | tabs/fraud_detection.py:157 | indexing succeeds exactly for positions -n..n-1 and raises an index error otherwise |
| FraudDetection.ProbaAtFromEnd | tabs/fraud_detection.py:157 | a negative position names the entry n places further on |
| FraudDetection.MakeRecord | tabs/fraud_detection.py:157-170 | the record exists exactly when both probabilities and the predicted position exist; the label is FRAUD exactly for class 1; the confidence and the two probabilities are the right entries times 100; the other fields are copied from the form |
| FraudDetection.ConfidenceMatchesLabel | tabs/fraud_detection.py:157-169 | for a 0/1 class and a probability pair, the confidence is the probability of the label shown |
| FraudDetection.NegativeClassReadsFromEnd | tabs/fraud_detection.py:157-166 | a class of -1 gives a SAFE record whose confidence is the fraud probability |
| FraudDetection.Session.constructor | app.py:69-70 | a new session's history is empty |
| FraudDetection.Session.Append | tabs/fraud_detection.py:171 | the history grows by exactly the new record at the end, earlier records unchanged |
| FraudDetection.AmountBadge | tabs/fraud_detection.py:195-206 | Low below 50, Medium in [50, 200), High in [200, 500), Very High from 500 on: each amount gets exactly one badge |
| FraudDetection.AmountBadgeMonotone | tabs/fraud_detection.py:195-206 | a larger amount never gets a lower amount badge |
| FraudDetection.TimeBadge | tabs/fraud_detection.py:219-227 | Normal Hours for 6..22, Late Night for 23, 0 and 1, Early Morning for 2..5 |
| FraudDetection.AgeBadge | tabs/fraud_detection.py:240-251 | Young Adult below 25, Adult in [25, 40), Middle Age in [40, 60), Senior from 60 on |
| FraudDetection.AgeBadgeMonotone | tabs/fraud_detection.py:240-251 | an older cardholder never gets a younger age group |
| FraudDetection.DayBadge | tabs/fraud_detection.py:264-269 | the Weekend badge is shown exactly when the weekend box is ticked |
| FraudDetection.RiskFactors | tabs/fraud_detection.py:339-347 | each factor is listed exactly when its condition holds, and the list is in the fixed order amount, hour, weekend, category |
| FraudDetection.UnusualHourMatchesBadge | tabs/fraud_detection.py:342-343 | the unusual-hour factor is listed exactly when the time badge is not Normal Hours |
| FraudDetection.AmountFactorAndBadge | tabs/fraud_detection.py:340 | the amount factor implies a Very High badge |
| FraudDetection.ExactlyFiveHundred | tabs/fraud_detection.py:195-206 | an amount of exactly 500 gets the Very High badge but no high-amount factor |
| FraudDetection.BadgesOf | tabs/fraud_detection.py:194-269 | the amount badge is Very High exactly from 500 on, the time badge is not Normal Hours exactly before 6 or after 22, the age badge is Young Adult exactly below 25, and the day badge is Weekend exactly when the box is ticked |
| FraudDetection.Prediction | tabs/fraud_detection.py:131-170 | a record exists only for choices the form offers; a choice an encoder lacks fails with the encoding error; every error is a `KeyError`, an unseen label, a width mismatch or an index error; the record copies the timestamp, amount, hour, category and state |
| FraudDetection.Analyze | tabs/fraud_detection.py:127-347 | an analysis succeeds exactly when the prediction does: the record is appended to the history, or the history is unchanged on an error; the badges are those of the form; each of the four factors is listed exactly when its condition holds, in the fixed order |
| Agreement.DerivedFeaturesAgree | training_model.py:51-66 | a transaction with a training row's amount, hour, weekend flag and age gets, before scaling, the four derived values that row got in training |
| Agreement.CodesAgree | training_model.py:97-101 | a training row's categorical value, entered in the form, is encoded by the saved encoder to the code that row was given |
| Agreement.TrainedFeaturesSelectable | tabs/fraud_detection.py:148 | every saved feature column is an input column exactly when every raw column training keeps is one |
| Agreement.NumericalColumnsAmongFeatures | training_model.py:105 | when the drop list spares the numerical columns, all five are features exactly when the loaded table has `amt` |

## Left out

- The Streamlit widgets, the HTML of the badges, the charts, the metrics panel and the CSV download are left out. The model keeps the values they show.
- The fitting and prediction internals of the third-party library are not modelled:
  - the `StandardScaler` fit: its parameters are an input of the training methods;
  - the Random Forest and XGBoost `fit`, `predict` and `predict_proba`: the classifier is an opaque pair of functions;
  - the metric functions: the metrics are an input.
- The train/test split, the confusion matrix, feature importances and console output are left out. They do not change the saved dictionary.
- Reading the CSV, pickling and unpickling, `os.makedirs` and file sizes are left out. Pickling is taken as the identity: the app loads the dictionary that was saved at the path it reads.
- FraudTraining.Run: the XGBoost script saves to `fraud_detection_model.pkl` in the working directory (fraud_training.py:152), while the app reads `models/fraud_detection_model.pkl` (app.py:40), which only the Random Forest script writes (training_model.py:244). The model's load of this script's dictionary holds only once the file is moved there; paths are not modelled.
- Preprocessing.Prepare: the scaler stands for the one `StandardScaler.fit` finds, but its width is an input and is not tied to the five numerical columns. A fitted scaler always has that width, and `PrepareError` states that such a scaler never gives a width error. So the width error that `TrainingModel.Run` and `FraudTraining.Run` can report never arises from the scripts themselves.
- Parsing dates and reading the clock are not modelled:
  - `dob` and `trans_date_trans_time` hold already parsed timestamps (year, hour, day of week), and a cell that is not one raises;
  - the current year, the training time and the record's timestamp are parameters.
- Floating point is not modelled: amounts, ratios, scaled values and probabilities are exact reals. That the two probabilities sum to 1 is up to the classifier, which is opaque, and is not stated.
- The `performance` lookup in the app's loading block is not modelled. It is never used by the core.
- The app's loader catches a missing model file and stops the page. That is file I/O and is not modelled.
- The guard that keeps an existing history on a rerun is left out. A session is created once, by its constructor.
- The data-exploration and static tabs and the README rewrite script hold no pipeline logic and are not modelled.
- Artifacts.Get: the `WrongType` error has no counterpart in the dynamically typed code, where a wrong value would fail later. It exists only because the model's dictionary values are typed.
- Preprocessing.EncodeCategoricals: requires the categorical columns to hold text. The model does not represent `astype(str)` of a non-text column.
- Preprocessing.EncodeCategoricals: requires a list without repeated names; the script's list has none.
- Frames.Frame.Select: requires distinct names. pandas would also accept a repeated name and return the column twice.
- Frames.Frame.ScaleColumns: requires distinct names. A repeated name would be scaled twice in pandas.
- FraudDetection.Analyze: requires distinct feature and numerical column lists. The saved lists are distinct when the raw table's columns are (`FeatureColumns`).
- Frames.ScaleError: the scaler's check of feature names against those it was fitted on is not modelled; only the width is compared.
- Agreement.NumericalColumnsAmongFeatures: is stated for any drop list that spares the five numerical columns, rather than proved for the scripts' concrete list of nineteen names.
