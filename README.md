# TempMat: a Dafny model of the temperature-matrix core

This project models the core of the Rust crate `temperature_parser`. That core is the
`TempMat<N>` container in `src/temp_mat.rs`, which holds N temperature channels
("cores"), each a series of `f64` readings. The model covers:

- building a matrix from whitespace-separated numbers (`from_str`);
- `new`, `shape` and the `Dims` pair with its hand-written `eq`, `ne` and `Display`;
- linear interpolation into per-channel slopes (`interp`, with the `INTERP`
  slope function of `src/lib.rs`);
- planning the report files (`write_temp_output`, `get_new_fname`, `create_modline`).

Modules:

- `Decimal` (`decimal.dfy`): how Rust's `{}` renders a `usize`. This is used by the
  `Display` of `Dims` and by the report file names.
- `TempMat` (`temp_mat.dfy`): everything else.

Modelling choices:

- `f64` is `real`.
- N is the length of the `channels` sequence. `from_str` and `new` take it as a parameter.
- The error type `TMFromStrError::InvalidDimensions { col }` is a datatype inside `TempMat`.
- `from_str` and `interp` fill a fresh array of N channels in loops, as the source does.
  They are methods over an `array<seq<real>>` and return the matrix as a value.
- `write_temp_output` returns the files it would create: a sequence of
  `OutputFile(name, lines)`. Each line is a `ModLine` record holding the four numbers
  of the line `t0 <= x <= t1 ; y = y0 + slope x ; interpolation`.

Behaviour the model makes explicit:

- **Broadcast.** `from_str` does not split the tokens across channels. Every token is
  pushed onto every channel, so a successful parse gives N identical copies of the whole
  series. Each copy has as many readings as there were tokens, not tokens / N. The model
  follows the code (`FromStr`, `FromStrBroadcast`).
- **`Dims::ne` is not `!eq`.** It holds only when both components differ. For example,
  (4, 3) and (4, 5) are neither `eq` nor `ne`.
- **Empty input.** An empty input parses to N empty channels, the same value as `new`.
  The interpolated matrix is then empty too, so the `assert_eq!` at the top of
  `write_temp_output` fails. The whole run goes through to the report exactly when
  there is at least one token (`PipelineOutputPreconditions`).
- **What a report line carries.** Line i of core k carries original reading i as y0,
  and y0 + slope * dt (`EndValue`) is original reading i + 1
  (`OutputReconstructsOriginal`, `PipelineReports`). The model states only these
  field values. It says nothing about the printed equation `y = y0 + slope x`; read
  with x as absolute time, that equation gives y0 at x = t0 only on the first line
  or where the slope is zero.

## Model

| member | source | states |
|---|---|---|
| `Decimal.NatToStringRoundTrip` | src/temp_mat.rs:136-140 | the decimal rendering of a core number reads back as that number |
| `Decimal.NatToStringInjective` | src/temp_mat.rs:136-140 | distinct core numbers render as distinct decimal strings |
| `TempMat.FromStr` | src/temp_mat.rs:34-58 | returns `InvalidDimensions(N)` exactly when the token count is not a multiple of N; otherwise N channels, each equal to the whole token sequence in input order (the loop invariant: every channel equals the prefix consumed so far) |
| `TempMat.FromStrBroadcast` | src/temp_mat.rs:51-57 | on success all channels are identical and uniform, each equals the input, and the shape is (N, token count) |
| `TempMat.FromStrEmptyIsNew` | src/temp_mat.rs:34-58 | empty input succeeds and equals `new()` |
| `TempMat.New` | src/temp_mat.rs:79-81 | N channels, all empty (so uniform) |
| `TempMat.Shape` | src/temp_mat.rs:83-85 | (N, length of channel 0); on a uniform matrix that is every channel's length |
| `TempMat.ShapeOfNew` | src/temp_mat.rs:79-85 | `new().shape()` is (N, 0) |
| `TempMat.DimsEq` | src/temp_mat.rs:70-72 | `eq` holds exactly when the two shapes are equal |
| `TempMat.DimsNe` | src/temp_mat.rs:73-75 | `ne` implies not `eq`; neither holds exactly when one component is equal and the other differs |
| `TempMat.DimsToString` | src/temp_mat.rs:63-67 | the display is "(", the first number in decimal, ", ", the second number, ")" |
| `TempMat.DimsToStringInjective` | src/temp_mat.rs:63-67 | different shapes never display the same text |
| `TempMat.Slope` | src/lib.rs:4 | the slope carries n1 to n2 in one step dt: n1 + slope * dt = n2 |
| `TempMat.SlopeSeries` | src/temp_mat.rs:90-93 | `windows(2)` mapped by the slope: length max(L - 1, 0), entry j the slope from reading j to reading j + 1 |
| `TempMat.IntegrateSlopeSeries` | src/temp_mat.rs:90-93 | the first reading and the slopes rebuild the channel (slopes lose only the start value) |
| `TempMat.SlopeSeriesOfIntegrate` | src/temp_mat.rs:90-93 | every slope series is the slope series of its own integration (the other direction of the round trip) |
| `TempMat.Interp` | src/temp_mat.rs:87-96 | N result channels, channel i the slope series of input channel i (the loop invariant: channels done so far are set) |
| `TempMat.InterpolatedShape` | src/temp_mat.rs:87-96 | channel i has length max(L_i - 1, 0), entry j is (c[j+1] - c[j]) / dt, and uniformity is preserved |
| `TempMat.InterpolatedChannelLocal` | src/temp_mat.rs:89-94 | result channel i depends only on input channel i |
| `TempMat.ShapeOfInterpolated` | src/temp_mat.rs:83-96 | the shape of the interpolation of a uniform matrix is (N, max(L - 1, 0)) |
| `TempMat.InterpolatedLosesOnlyStart` | src/temp_mat.rs:87-96 | each original channel is rebuilt from its first reading and its interpolated channel |
| `TempMat.CreateModline` | src/temp_mat.rs:145-150 | the line's fields in printed order (t0, t1, y0, slope) come from the arguments in call order (y0, interp, t0, t1) |
| `TempMat.DirPrefix` | src/temp_mat.rs:129-132 | a missing or empty parent adds nothing; a directory already ending in '/' is kept as it is; any other directory gets exactly one '/' appended |
| `TempMat.NewFileName` | src/temp_mat.rs:128-142 | the name is the directory, then the stem, then "-core-", the core number in decimal, and ".txt" |
| `TempMat.NewFileNamesDistinct` | src/temp_mat.rs:128-142 | distinct core numbers give distinct file names |
| `TempMat.PlannedLines` | src/temp_mat.rs:114-119 | one line per interpolated index i with t0 = i*dt, t1 = t0 + dt, y0 = original reading i, slope = interpolated entry i |
| `TempMat.CoreLines` | src/temp_mat.rs:114-119 | the inner loop produces exactly those lines, in increasing i |
| `TempMat.WriteTempOutput` | src/temp_mat.rs:100-123 | N files, file k named by `get_new_fname(k)` and holding core k's lines |
| `TempMat.OutputNamesDistinct` | src/temp_mat.rs:109-111 | no two cores write the same file |
| `TempMat.OutputIntervalsTile` | src/temp_mat.rs:114-118 | each file's intervals start at 0, have width dt, and each ends where the next begins (increasing when dt > 0) |
| `TempMat.OutputReconstructsOriginal` | src/temp_mat.rs:100-123 | for the interpolation of a uniform, non-empty matrix the output precondition holds, each file has L - 1 lines, and line i carries reading i as y0 with y0 + slope * dt equal to reading i + 1 |
| `TempMat.PipelineOutputPreconditions` | src/temp_mat.rs:106 | after `from_str` and `interp`, the report's shape assertion holds exactly when the input had at least one token |
| `TempMat.PipelineReports` | src/main.rs:18-26 | the full run on a non-empty input gives N distinctly named files of (token count - 1) lines, line i carrying input reading i as y0 with y0 + slope * dt equal to input reading i + 1 |

## Left out

- Tokenising and number parsing (src/temp_mat.rs:37-44): `FromStr` takes the tokens as already-parsed numbers. A token that is not a number panics through `expect` in the source. That is outside the model.
- Floating point: readings are exact reals. Rounding, overflow, inf and NaN are not modelled.
- Slope: requires dt != 0.0, because real division by zero is undefined in the model. The source yields inf or NaN for dt = 0. The same requirement carries over to `SlopeSeries`, `Interpolated` and `Interp`.
- WriteTempOutput: file creation and writing are not modelled; the method returns the planned files. So are I/O errors, short writes by `write`, and the partial output left by a failure mid-loop.
- WriteTempOutput: the `assert_eq!` on the shapes and the index panics are stated as the precondition `OutputPreconditions`, not as an error outcome.
- CreateModline: the numeric rendering (`{:>5}`, `{:>10}`, `{:>8.3}`) is float formatting and is not modelled. Only the four fields and their order are kept.
- NewFileName: Rust `Path` behaviour is not modelled. That covers `parent`, `file_name`, `file_stem`, `to_str`, the unwraps and the `panic!("whoa")`. The parent directory and the stem are given strings. Joining is modelled for a relative name, which a stem always gives.
- The `Deref` impl (src/temp_mat.rs:21-26) only gives access to the channel array. The model reads `channels` directly.
- N = 0 is excluded: `FromStr`, `Shape` and `OutputPreconditions` require at least one channel. In the source, N = 0 panics on `% N` (src/temp_mat.rs:46) and on indexing channel 0 (src/temp_mat.rs:84, 106).
- The error's message text (src/error.rs:8) is not modelled.
- src/main.rs is not part of this model: argument reading, file reading and the printing of shapes. It only fixes N = 4 and dt = 30.0, which are instances of the parameters here.
- src/bin/sandbox.rs is not part of this model. Its `get_new_fname` duplicates the one modelled.
