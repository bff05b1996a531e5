# Content planner — Dafny model

The Content Planner is a small web form. It asks for a topic, a number of
days and a number of posts per day. It then asks a hosted chat model for one
post idea per (day, post) slot, shows the ideas as a table with the columns
"Day", "Post #" and "Generated Idea", and offers the table for download as
`<topic>_Content_Planner.csv` and `<topic>_Content_Planner.xlsx`.

This project models the part of `Contentplanner.py` that is logic rather than
widget or library plumbing:

- `Labels` (labels.dfy): Python's `str` on a non-negative integer, the day
  label `"Day <n>"` and the day list `days_list` (line 36). The day list is
  proved to label day `i + 1` at entry `i` and to never repeat a label.
- `Planner` (planner.dfy): the planner-building block (lines 35-44).
  `BuildPlan` is imperative: a `while` loop over the day list whose body runs
  `AppendDay`, the inner `while` loop over the post numbers
  `1 .. posts_per_day`. For each slot it calls the
  content source once with the topic and appends a row. It is proved equal to
  the specification function `Plan`, which is defined day by day over the day
  list. The lemmas about `Plan` give its length, the day label and post number
  of every row, the block of rows of each day, and the prefix property.
- The content source (`generate_content`, lines 22-31) is the class
  `ContentSource`. Its replies are an arbitrary function `respond(topic, n)` of
  the topic and the call number, fixed when the source is created, and
  `calls` logs the topic of every call. Nothing is assumed about the replies.
- `Export` (export.dfy): the two download file names (lines 53 and 65), with
  their inverse `TopicOf`.
- `Wrappers` (wrappers.dfy): the `Option` type used by the inverses.

Other variants of this program split each idea into three fields, fall back
to a local random idea generator when no API key is set, and turn provider
errors into text. `Contentplanner.py` does none of this: it has one free-text
"Generated Idea" column, a single remote source, and no error handling. The
model follows `Contentplanner.py`.

`num_days` and `posts_per_day` are `nat`. The loop handles 0 (an empty plan,
no calls). The form's bounds (1 to 100 days, 1 to 10 posts per day) appear
only in `PlanSizeWithinInputBounds`, not as preconditions of the loop.

## Model

| member | source | states |
|---|---|---|
| Labels.NatToString | Contentplanner.py:36 | `str(n)` is a non-empty string of decimal digits; its first digit is `0` only for `n == 0`; it is a single digit exactly when `n < 10` |
| Labels.NatToStringRoundTrip | Contentplanner.py:36 | reading the digits of `str(n)` back gives `n` |
| Labels.NatToStringInjective | Contentplanner.py:36 | `str(m) == str(n)` exactly when `m == n` |
| Labels.DayLabelRoundTrip | Contentplanner.py:36 | the label `"Day " + str(n)` parses back to day `n` |
| Labels.DayLabelInjective | Contentplanner.py:36 | two day labels are equal exactly when their day numbers are |
| Labels.DaysList | Contentplanner.py:36 | `days_list` has exactly `num_days` entries |
| Labels.DaysListLabels | Contentplanner.py:36 | entry `i` of `days_list` is the label of day `i + 1`, and two entries are equal exactly when their positions are |
| Planner.ContentSource.constructor | Contentplanner.py:11 | a new source has made no calls and answers with the given reply function |
| Planner.ContentSource.Generate | Contentplanner.py:22-31 | one call logs its topic and returns the reply for that call number |
| Planner.PlanOf | Contentplanner.py:37-44 | a plan over a day list with `perDay` posts per day has `len(days) * perDay` rows |
| Planner.PlanOfAppendDay | Contentplanner.py:37-44 | adding a day to the day list appends exactly that day's rows (post numbers 1 .. perDay) and leaves all earlier rows unchanged |
| Planner.PlanOfRowAt | Contentplanner.py:37-44 | row `k` is for day list entry `k / perDay`, has post number `k % perDay + 1` and carries the k-th reply |
| Planner.PlanRowAt | Contentplanner.py:36-44 | the plan has `num_days * posts_per_day` rows; row `k` is labelled `"Day " + str(k / posts_per_day + 1)`, has post number `k % posts_per_day + 1` and carries the k-th reply |
| Planner.PlanDayGroup | Contentplanner.py:38-44 | the rows of day `d + 1` are the consecutive block `d*P .. (d+1)*P`; all carry that day's label, and their post numbers run 1, 2, ..., P with no gap or repeat |
| Planner.RowsOfDay | Contentplanner.py:36-44 | a row carries the label `"Day n"` if and only if it lies in rows `(n-1)*P .. n*P`, so each label covers P consecutive rows and no others |
| Planner.PlanPrefix | Contentplanner.py:40-44 | the plan of the first `d` days is a prefix of the plan of any longer run: rows are only appended |
| Planner.PlanSizeWithinInputBounds | Contentplanner.py:18-19 | with 1 to 100 days and 1 to 10 posts per day, the plan has between 1 and 1000 rows |
| Planner.DefaultRequestPlan | Contentplanner.py:18-19 | with the default 5 days and 2 posts per day, the (Day, Post #) columns are ("Day 1", 1), ("Day 1", 2), ("Day 2", 1), ..., ("Day 5", 2) |
| Planner.AppendDay | Contentplanner.py:38-44 | one pass of the inner loop calls the source exactly `posts_per_day` times with `topic` and appends, after the rows already built, the rows (day, 1, reply 1) .. (day, P, reply P) in call order |
| Planner.BuildPlan | Contentplanner.py:35-44 | the source is called exactly `num_days * posts_per_day` times, always with `topic`, and the planner equals `Plan` of the replies in call order (row k carries the reply of the k-th call); with 0 days or 0 posts it makes no call and returns an empty planner |
| Export.TopicOfExportFileName | Contentplanner.py:53 | the topic can be read back from the download name `topic + "_Content_Planner." + ext` |
| Export.DownloadNames | Contentplanner.py:53-65 | the CSV name is `topic + "_Content_Planner.csv"`, the Excel name is `topic + "_Content_Planner.xlsx"`, the two always differ, and each determines its topic |

## Left out

- The web form (title, text, input widgets, button, table display and download buttons; Contentplanner.py:13-19, 34, 47, 50-67): presentation only. The input bounds are kept in `PlanSizeWithinInputBounds`.
- The body of `generate_content` (Contentplanner.py:22-31): a network call to a hosted chat model, whose output cannot be specified. `ContentSource.Generate` stands in for it, with arbitrary replies. Prompt text, model name and token limit are not modelled.
- Loading the API key and creating the client (Contentplanner.py:9-11): environment and external configuration.
- Failures of the remote call: the code does not catch them, so a failed call ends the whole run. The model has no failing source.
- The table construction and the CSV and Excel encodings (Contentplanner.py:46, 52, 58-61): library calls. Only the file names are modelled.
- Python's `str` of a negative number: the counts are `nat`, and the form never passes a negative count.
