# Anomaly alert rule of the Ad Manager alerter

This project models the decision core of the Ad Manager alerter. Each run, the
alerter asks BigQuery ML (`ML.DETECT_ANOMALIES`) for the last few days of hourly
rows of one monitored column. Each row carries an `is_anomaly` flag. The
alerter then decides whether to email an alert chart.

The repository has two revisions of the detector:

- `src/anomaly_detector.py`, the current one, sends the alert through SendGrid.
  The mail inlines the chart with a `cid:` reference.
- `anomaly_detector.py`, the older one, saves the chart to `chart.png`. It then
  sends the mail through yagmail, which inlines that file by name.

`should_notify` and the anomaly-row filter of `save_alert_chart` have
token-identical bodies in the two revisions. They are defined once, in module
`AnomalyRule` (`anomaly_rule.dfy`). These parts belong to that module:

- **The rule.** `ShouldNotify(flags, k)` is false while the `is_anomaly` column
  holds fewer than `k` flags. Otherwise it is true exactly when the last `k`
  flags are all set.
- **Position, not time.** Neither query has an `ORDER BY`, so "last" means
  last by position.
- **A reference definition.** The rule is proved equal to `TrailingRun`, the
  length of the run of anomalies that ends the series. This shows the rule is a
  check of the trailing window, not a search for the longest streak.
- **The filter.** `AnomalyRows` is the boolean-mask selection
  `data[data.is_anomaly]`. Its rows become the chart's red markers. It keeps
  the flagged rows in series order, and `MarkerPositions` gives their index
  labels.

Modules `SendGridDetector` (`sendgrid_detector.dfy`) and `YagmailDetector`
(`yagmail_detector.dfy`) each hold a `Detector` class. Its `outbox` records
every message handed to the mail transport. `detect_and_notify` is the method
`DetectAndNotify`:

- Its parameter is the series the anomaly query would return.
- When the rule fires, it sends exactly one message and returns `"ALERT_SENT"`.
- Otherwise it returns `"OK"` and changes nothing.

In the older revision, the class also keeps a `files` map from file name to
the chart saved there. Its contract shows that the message inlines
`chart.png`, which is the chart of the series just checked.

The configuration is a constructor parameter. `SendGridDetector.ExampleConfig`
holds the values of `src/config.example.py`: the column
`Column_AD_SERVER_IMPRESSIONS`, one receiver, and the threshold 3. The
top-level `config.example.py` does not define the column, the receivers or the
threshold, although `anomaly_detector.py` imports them. So the older revision's
`Config` has no example value.

## Model

| member | source | states |
|---|---|---|
| `AnomalyRule.AnomalyFlags` | src/anomaly_detector.py:117-120 | the `is_anomaly` column the rule reads: one flag per row, the i-th flag being the i-th row's flag |
| `AnomalyRule.ShouldNotify` | src/anomaly_detector.py:113-120 | false when the column holds fewer than k flags; otherwise true exactly when every one of the last k flags by position is set |
| `AnomalyRule.All` | anomaly_detector.py:86 | Python `all` over the sliced flags: true exactly when every element is set, true for the empty slice |
| `AnomalyRule.ShortSeriesNeverAlerts` | anomaly_detector.py:83-84 | a series with fewer than k flags never alerts, for every k >= 1 |
| `AnomalyRule.EmptySeriesNeverAlerts` | tests/anomaly_detector_test.py:32-34 | the empty series never alerts, for every k >= 1 |
| `AnomalyRule.TrailingRun` | src/anomaly_detector.py:119-120 | reference for the trailing window: n flags at the end are all set, and the flag before them, if any, is clear |
| `AnomalyRule.ShouldNotifyIffTrailingRun` | src/anomaly_detector.py:117-120 | the rule fires at k exactly when the series ends in a run of at least k anomalies |
| `AnomalyRule.OnlyTrailingWindowMatters` | src/anomaly_detector.py:120 | once the series holds at least k flags, prepending any history leaves the decision unchanged |
| `AnomalyRule.AnomalousTailAlerts` | tests/anomaly_detector_test.py:20-22 | any history followed by k anomalies alerts |
| `AnomalyRule.NormalHourInWindowSuppresses` | tests/anomaly_detector_test.py:24-26 | one clear flag among the last k suppresses the alert, whatever came earlier |
| `AnomalyRule.ThresholdMonotone` | src/anomaly_detector.py:117-120 | a series that alerts at k alerts at every j with 1 <= j <= k |
| `AnomalyRule.NextHour` | src/anomaly_detector.py:117-120 | appending a normal hour never alerts; appending an anomaly alerts at k (k >= 2) exactly when the earlier series alerted at k - 1, and always at k = 1 |
| `AnomalyRule.UnitTestCases` | tests/anomaly_detector_test.py:20-34 | with k = 3: [F,T,F,T,T,T] alerts; [T,T,T,F,T], [T,T] and [] do not |
| `AnomalyRule.MarkerPositions` | src/anomaly_detector.py:45 | the index labels of the selection are strictly ascending positions of flagged rows |
| `AnomalyRule.MarkerPositionsComplete` | src/anomaly_detector.py:45 | every flagged position is among the selection's index labels |
| `AnomalyRule.AnomalyRows` | src/anomaly_detector.py:45-48 | the marker rows are the rows at the selected positions, one per position, in series order |
| `AnomalyRule.AnomalyRowsMembers` | anomaly_detector.py:28-31 | a row is a marker row exactly when it is a row of the series whose flag is set |
| `AnomalyRule.NoAnomalyNoMarkers` | src/anomaly_detector.py:44-48 | there are no markers exactly when no row is flagged |
| `AnomalyRule.AlertingStreakIsMarked` | src/anomaly_detector.py:125-126 | when the rule fires at k, the chart has at least k markers and its last k markers are the last k rows |
| `SendGridDetector.RenderAlertChart` | src/anomaly_detector.py:28-57 | the chart is titled with the given column and drawn over the whole series; its markers are the flagged rows in order |
| `SendGridDetector.AlertMail` | src/anomaly_detector.py:91-108 | subject "Anomaly detected on " + column; configured sender and receivers; the content id is `alert_chart` and the body's quoted `src="cid:..."` attribute names exactly that id; the body names the column; the inline attachment is `alert_chart.png` of type `image/png` and carries the chart |
| `SendGridDetector.Detector.Notify` | src/anomaly_detector.py:88-110 | exactly one mail, built from the chart of the series, is appended to the outbox |
| `SendGridDetector.Detector.DetectAndNotify` | src/anomaly_detector.py:122-129 | returns "ALERT_SENT" exactly when the rule holds at the configured threshold, and then sends exactly one mail; otherwise returns "OK" and sends nothing |
| `SendGridDetector.SeriesOf` | tests/anomaly_detector_test.py:36-38 | like the tests' mock frame, a series whose `is_anomaly` column is exactly the given list |
| `SendGridDetector.WorkflowScenarios` | src/anomaly_detector.py:122-129 | at the example configuration, the series [F,T,F,T,T,T] gives "ALERT_SENT" and the recovered series [T,T,T,F,T] gives "OK", one mail in all |
| `YagmailDetector.AlertMessage` | anomaly_detector.py:67-76 | fixed subject "Anomaly detected"; sent to the configured receivers; inlines `chart.png` and no other file |
| `YagmailDetector.Detector.SaveAlertChart` | anomaly_detector.py:14-37 | the untitled chart of the whole series, with the flagged rows as markers, replaces the file; nothing is sent |
| `YagmailDetector.Detector.Notify` | anomaly_detector.py:67-76 | saves the chart under `chart.png`, then sends exactly one message; every file it inlines holds the chart of this series |
| `YagmailDetector.Detector.DetectAndNotify` | anomaly_detector.py:88-95 | returns "ALERT_SENT" exactly when the rule holds, having saved the chart and sent one message; otherwise returns "OK", writes nothing and sends nothing |

## Left out

- Thresholds below 1: `ShouldNotify` requires `k >= 1`. For `k = 0`, Python's `[-0:]` is the whole list, so the source would return `all(flags)`. For a negative `k`, the length guard never fires and `[-k:]` drops the first |k| flags, so the source would return `all(flags[|k|:])`. The configured threshold is 3.
- The anomaly query (`get_anomaly_data`): it is a BigQuery network call, and BigQuery ML computes the flags. The series it returns is a parameter of `DetectAndNotify`.
- `TIME_SERIES_ID_COL`, selected by the current revision's query, is not a field of `Row`: the rule never reads it.
- Drawing, PNG encoding and base64: matplotlib's global figure state, `autofmt_xdate`, `BytesIO` and the encoder are foreign code. The chart is the abstract value `Chart`: title, full series and marker rows.
- Metric values and bounds: they are floats the code only passes to the plotter. They are carried as reals and never computed on.
- Mail delivery: SendGrid, yagmail/SMTP, the API key and the Gmail password are external. Sending is modelled as appending the message to `outbox`. A delivery or query failure would propagate as a Python exception; the model has no failure path for these.
- `notify` in the current revision builds the `Mail` first and then sets its `attachment` field. The model builds the finished record in one step, so no observable state lies between the two.
- The report download, BigQuery table load and model build (`src/report_downloader.py`, `src/ml_builder.py`) are not part of this model. Neither are the HTTP entry points (`src/main.py`, `main.py`). They are calls into external services with no decision logic.
