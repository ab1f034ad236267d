# Risk plot generator (rpg) — verified model of the data layer

rpg reads a CSV file of security observations. Each row holds an id, a name,
a Likelihood and an Impact, each an `H`, `M` or `L`, and (in the risk schema)
a risk rating. rpg draws any combination of three plots, in the order donut,
grid, recommendations:

- a donut (ring) chart of the severity counters, with an exposure level at its centre;
- a risk grid, with one marker per observation rated H, M or L, inside its Likelihood × Impact cell;
- a recommendations plot, with one uniform marker per observation.

This project models the layer between the rows and the renderer. It covers:

- the category → quadrant-centre mapping;
- the two loaders, which append to module-level lists and counters;
- the severity tally and the exposure level, including its tie-break;
- the stepped `random.randrange` ranges that jitter each point inside its cell;
- the per-rating marker choice;
- the legend labels, appended to a list that is shared and never cleared;
- the top-level dispatch: which loader runs, and in which order the plots are made.

Layout, one module per file:

- `wrappers.dfy`: `Option`.
- `categories.dfy`: H/M/L and the quadrant centres.
- `severity.dfy`: the counters and the exposure level.
- `jitter.dfy`: the admissible sets of `randrange`.
- `plots.dfy`: markers and legend labels.
- `plotstate.dfy`: the class `PlotData`.
  - It holds the module-level lists `numbers`, `observation_names`, `amount_of_observations`, `risk_rating`, `mylabels`, `x_coords` and `y_coords`, and the three counters.
  - Its loop methods are the loaders, the two drawing loops and the legend loop.
- `orchestrator.dfy`: the module-level code.
  - `Run` takes the flags, the file's rows and the generator's picks.
  - It returns what each selected plot hands to the renderer, and is proved equal to the pure function `Expected`.

The input is the file's rows, already split into fields; row 0 is the header.
Each `randrange(start, stop, step)` call is modelled as choosing an index into
its finite admissible set `start, start + step, …` (below `stop`); the indices
are parameters (`Picks`).

Behaviour of the code that the model keeps as it is:

- The code raises no error for a rating outside {H, M, L}. It stores the rating, counts only H, M and L, and the grid skips the row (rpg.py:58, 71-76, 181-192).
- The coordinate mapping has no branch for a Likelihood or Impact outside {H, M, L}. Such a row keeps the previous row's x or y, or raises NameError on the first row (rpg.py:59-70). The model makes H/M/L Likelihood and Impact fields a precondition (see "Left out").
- `mylabels` is a module-level list that the grid and recommendations plots append to when run with `--legend`, and that nothing clears; the donut legend uses its own fixed list (rpg.py:17, 119, 142-143, 196-198, 263-265). With `--grid --recommendations --legend`, the `mylabels` handed to `ax.legend` by the recommendations plot holds every label twice. `Orchestrator.SharedLabelsAccumulate` states this.

## Model

| member | source | states |
|---|---|---|
| Categories.LikelihoodX | rpg.py:59-64 | the Likelihood centre is 150 times the category's rank (L 1, M 2, H 3) |
| Categories.ImpactY | rpg.py:65-70 | the Impact centre is 100 times the category's rank |
| Categories.MappingTable | rpg.py:59-70 | the mapping is exactly H/M/L → x 450/300/150 and y 300/200/100 |
| Categories.CentreIsOneOfNine | rpg.py:92-103 | every centre lies in {150,300,450} × {100,200,300} |
| Categories.CentreRoundTrip | rpg.py:59-70 | reading the grid cell that holds a centre gives back its Likelihood and Impact |
| Categories.MappingInjective | rpg.py:59-70 | distinct categories get distinct centres on each axis |
| Severity.CountOfSnoc | rpg.py:71-76 | appending one rating raises the count of its own letter by one and no other |
| Severity.CountOfAppend | rpg.py:55-76 | counting over two appended lists of ratings is the sum of the counts |
| Severity.CountsSumToRated | rpg.py:71-76 | high + medium + low counts exactly the ratings that are H, M or L |
| Severity.RatedCountAll | rpg.py:58-76 | every stored rating is counted iff every rating is H, M or L |
| Severity.Tally | rpg.py:71-76 | the three counters of a column of ratings add up to the number of H/M/L ratings |
| Severity.MaxOf | rpg.py:127 | max returns an element of the tuple no smaller than any element |
| Severity.IndexOf | rpg.py:127 | tuple.index returns the first position that holds the value |
| Severity.Exposure | rpg.py:118-133 | the level has the largest count and every level before it in High, Medium, Low order has a strictly smaller one |
| Severity.ExposureUnique | rpg.py:127-133 | that first-maximum property holds of exactly one level, the one Exposure returns |
| Severity.LevelName | rpg.py:128-138 | the centre text is "High", "Medium" or "Low", exactly for its own level |
| Severity.ExposureExamples | rpg.py:127-133 | (2,1,0) → High, (2,2,0) → High, (0,3,3) → Medium, (0,0,0) → High, (0,1,2) → Low |
| Severity.CountOfExample | rpg.py:71-76 | ratings H, H, M count 2 H, 1 M, 0 L |
| Severity.TallyExample | rpg.py:118-133 | ratings H, H, M tally to (2,1,0), whose exposure level is High |
| Jitter.Admissible | rpg.py:177 | the candidate sequence has ceil((stop − start)/step) values, none when stop ≤ start |
| Jitter.RangeCountBound | rpg.py:177-178 | index k is admissible iff start + step·k < stop |
| Jitter.AdmissibleMembers | rpg.py:177-178 | x is admissible iff x = start + step·k for some k ≥ 0 with x < stop |
| Jitter.RandRange | rpg.py:177-178 | randrange's result is admissible and start ≤ x < stop |
| Jitter.GridX | rpg.py:177 | the grid x is qx − 90 + 25k for k < 4, and qx − 90 ≤ x < qx − 10, a member of randrange's admissible set |
| Jitter.JitterY | rpg.py:178 | y is qy − 80 + 20k for k < 4, and qy − 80 ≤ y < qy − 10, a member of randrange's admissible set (both plots) |
| Jitter.RecommendationX | rpg.py:254 | the recommendations x is qx − 130 + 25k for k < 5, and qx − 130 ≤ x < qx − 10, a member of randrange's admissible set |
| Jitter.ChoiceCounts | rpg.py:254-255 | the admissible sets are exactly {qx−90, qx−65, qx−40, qx−15}, {qy−80, qy−60, qy−40, qy−20}, {qx−130, qx−105, qx−80, qx−55, qx−30} |
| Jitter.GridPointInCell | rpg.py:170-178 | a grid point lies strictly inside its 150×100 cell and inside [0,450]×[0,300], and its cell reads back as its own categories |
| Jitter.RecommendationPointInCell | rpg.py:248-255 | a recommendations point lies strictly inside its cell, with x ≥ 20, and reads back as its own categories |
| Plots.GridMark | rpg.py:181-192 | a marker is drawn iff the rating is H, M or L; fill #e20000/#fecb00/#ffff00; size 200; text black iff L, white otherwise |
| Plots.RecommendationMark | rpg.py:258-259 | every recommendations marker is at its point with fill #4f81bd, size 250, the id as text in white |
| Plots.RecommendationStyleUniform | rpg.py:258-259 | any two recommendations markers share fill, size and text colour: no severity colouring |
| Plots.LegendLabel | rpg.py:197 | a label is the id, then a single space, then the name |
| Plots.Labels | rpg.py:196-197 | label i is LegendLabel(numbers[i], names[i]), for as many pairs as zip yields |
| Plots.LabelRoundTrip | rpg.py:196-197 | a label whose id has no space splits back into that id and name |
| PlotState.ColumnsAt | rpg.py:55-58 | entry i of each column is row i's field, or row i's mapped centre |
| PlotState.Indices | rpg.py:80-81 | enumerate yields the indices 0 … n − 1 |
| PlotState.PlotData.constructor | rpg.py:13-22 | every list is empty and every counter is zero at start |
| PlotState.PlotData.LoadRiskCsv | rpg.py:46-81 | after the header, each list grows by exactly its column of the data rows in file order; a counter grows by the number of ratings equal to its letter; indices cover every stored name |
| PlotState.PlotData.AppendRiskRow | rpg.py:55-78 | one row appends its id, name, rating and centre, and keeps the counters equal to the letter counts |
| PlotState.PlotData.CountRating | rpg.py:71-76 | the counter of the rating's letter goes up by one; any other rating changes nothing |
| PlotState.PlotData.LoadRecommendationsCsv | rpg.py:83-108 | as the risk loader, without a rating column: the ratings and counters are left unchanged |
| PlotState.PlotData.AppendRecommendationRow | rpg.py:89-105 | one row appends its id, name and centre |
| PlotState.PlotData.AppendIndices | rpg.py:107-108 | amount_of_observations grows by 0 … n − 1, where n counts every name stored so far |
| PlotState.PlotData.GridMarkAt | rpg.py:175-192 | observation j gets a marker iff its rating is H, M or L; the marker carries its id and lies on the randrange lattice of its centre |
| PlotState.PlotData.GridMarkInCell | rpg.py:173-192 | observation j is drawn iff it is rated H/M/L, strictly inside the cell of the centre it indexes, within the background |
| PlotState.PlotData.GridMarks | rpg.py:173-192 | the loop draws, for every observation zip visits, the marker GridMarkAt specifies |
| PlotState.PlotData.RecommendationMarkAt | rpg.py:254-259 | observation j is always drawn, with its id, the uniform fill and size, on the wider randrange lattice of its centre |
| PlotState.PlotData.RecommendationMarkInCell | rpg.py:251-259 | every observation is drawn strictly inside its cell, with x ≥ 20, labelled with its id |
| PlotState.PlotData.RecommendationMarks | rpg.py:251-259 | the loop draws, for every observation zip visits, the marker RecommendationMarkAt specifies |
| PlotState.PlotData.BuildLegend | rpg.py:196-197 | mylabels becomes its old contents followed by the labels of zip(numbers, names) |
| Orchestrator.LoaderFor | rpg.py:299-302 | the risk loader runs iff donut or grid is set, the recommendations loader iff neither is and recommendations is, and no loader otherwise |
| Orchestrator.Modes | rpg.py:304-309 | a mode is run iff its flag is set, and the modes run in the order donut, grid, recommendations |
| Orchestrator.EveryModeHasData | rpg.py:299-309 | every mode that runs has had a loader run, and donut and grid always have the risk schema |
| Orchestrator.DestinationOf | rpg.py:146-149 | a plot is saved to the given path iff --output-png-file is non-empty, and shown otherwise |
| Orchestrator.DrawDonut | rpg.py:110-149 | the ring holds the three counters, the exposure level, and that level's name as the centre text |
| Orchestrator.DrawGrid | rpg.py:151-228 | the grid draws one marker per observation rated H, M or L; with --legend it appends the labels to mylabels and hands all of mylabels to ax.legend |
| Orchestrator.DrawRecommendations | rpg.py:230-295 | the same for the recommendations plot |
| Orchestrator.GridMarksForRows | rpg.py:173-192 | row j is drawn in the grid iff rated H/M/L, in the cell of its own Likelihood and Impact, labelled with its id |
| Orchestrator.RecommendationMarksForRows | rpg.py:251-259 | every row is drawn in the cell of its own Likelihood and Impact, labelled with its id |
| Orchestrator.Load | rpg.py:297-302 | fresh lists hold exactly the data rows of the selected schema and mylabels is empty; in the risk schema the counters are the tally of the rating column, otherwise ratings and counters stay empty; with no loader every list stays empty |
| Orchestrator.GridMarksOfRows | rpg.py:173-178 | over freshly loaded lists, the indirection through amount_of_observations is the identity, so the grid draws row j at row j's centre |
| Orchestrator.RecommendationMarksOfRows | rpg.py:251-255 | the same for the recommendations plot |
| Orchestrator.GridMarksAre | rpg.py:173-192 | the markers drawn over lists loaded with the rows are the markers of the rows |
| Orchestrator.RecommendationMarksAre | rpg.py:251-259 | the same for the recommendations markers |
| Orchestrator.GridPlotOfRows | rpg.py:173-199 | a grid drawn over lists loaded with the rows is the grid of the rows |
| Orchestrator.RecommendationsPlotOfRows | rpg.py:251-266 | a recommendations plot drawn over loaded lists is the plot of the rows |
| Orchestrator.SelectedInOrder | rpg.py:304-309 | the selected plots among one of each kind match the selected modes in order, all for one destination |
| Orchestrator.ExpectedFollowsModes | rpg.py:304-309 | a run makes one plot per selected mode, in mode order, all sent to the one destination the flags name |
| Orchestrator.SharedLabelsAccumulate | rpg.py:263-266 | with --grid, --recommendations and --legend, the mylabels handed to ax.legend holds every label once for the grid and every label twice for the recommendations plot |
| Orchestrator.DonutStep | rpg.py:304-305 | the donut step gives the ring of the rows' tally iff donut is set |
| Orchestrator.GridStep | rpg.py:306-307 | the grid step gives the grid of the rows iff grid is set, and appends the labels to mylabels only with --legend |
| Orchestrator.RecommendationsStep | rpg.py:308-309 | the recommendations step gives the plot of the rows iff recommendations is set, appends the labels to mylabels iff --legend is also set, and leaves the loaded lists unchanged |
| Orchestrator.Run | rpg.py:297-309 | the whole run hands the renderer exactly the plots `Expected` specifies |

## Left out

- Rendering: every matplotlib call is left out, because it is a library whose code is not part of this model. That covers figures, `imshow`, the marker edge colour, font sizes and weights, the text offset `y − 3`, pie wedges and their colours, legend placement, tick locators, the dashed grid, `show` and `savefig` options. A plot's outcome is reduced to what it hands over (markers, counts, level, legend labels) and its `Destination`.
- `--axis-labels` and `--axis-arrows`: they only add matplotlib decorations, so they are not part of `Args`.
- Argument parsing (`get_args`, rpg.py:24-44) is not modelled. `Args` carries the three switches and the two string options (absent is `None`). A string option counts as set when it is present and non-empty, as Python's truthiness does.
- File I/O and CSV dialect handling are not modelled. The input is the rows as already split, and an unreadable file is not modelled.
- The background image and its fallback path (rpg.py:155-159, rpg.py:234-238) are filesystem reads, so they are not modelled.
- The random generator is not modelled. Every `randrange` result is an index the caller supplies (`Picks`), drawn from the admissible set the model defines.
- PlotState.PlotData.LoadRiskCsv: requires the Likelihood and Impact fields of every data row to be H, M or L. For any other value the source keeps the previous row's x or y, or raises NameError on the first row; neither behaviour is modelled.
- PlotState.PlotData.LoadRecommendationsCsv: the same precondition, for the same reason.
- PlotState.PlotData.LoadRiskCsv: requires at least 5 fields per data row (4 for the recommendations loader) and a header row. A shorter row (IndexError) and an empty file (StopIteration from `next`) are not modelled.
- Saving: with `--output-png-file` and more than one mode, every plot calls `plt.savefig` on the same path (rpg.py:149, 228, 295), so the file keeps only the last plot. The model records each plot's `Destination` only; the overwrite is not modelled, so "sent to the one destination" does not mean "all saved".
- Orchestrator.Run: requires that the file suits the selected loader and that the picks cover every observation. The exceptions the source raises otherwise are not modelled.
