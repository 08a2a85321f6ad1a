/**
 * The current revision of the detector (src/anomaly_detector.py): on an
 * alert it renders the chart and sends one SendGrid mail that inlines the
 * chart through a `cid:` reference.
 *
 * The anomaly query is not modelled: the series it would return is a
 * parameter of DetectAndNotify. SendGrid delivery is modelled as appending
 * the finished message to the detector's outbox.
 */
module SendGridDetector {
  import opened AnomalyRule

  /** The settings the module imports from its configuration. */
  datatype Config = Config(
    columnToMonitor: string,
    senderAddress: string,
    alertReceivers: seq<string>,
    consecutiveAnomaliesReq: int)

  /** The values of the example configuration. */
  const ExampleConfig: Config :=
    Config("Column_AD_SERVER_IMPRESSIONS", "sender@example.com", ["receiver@example.com"], ConsecutiveAnomaliesReq)

  /** The inline attachment; its content is the rendered chart. */
  datatype Attachment = Attachment(
    disposition: string,
    fileName: string,
    fileType: string,
    fileContent: Chart,
    contentId: string)

  datatype Mail = Mail(
    fromEmail: string,
    toEmails: seq<string>,
    subject: string,
    htmlContent: string,
    attachment: Attachment)

  predicate OccursAt(needle: string, hay: string, i: int)
  {
    0 <= i && i + |needle| <= |hay| && hay[i..i + |needle|] == needle
  }

  ghost predicate Occurs(needle: string, hay: string)
  {
    exists i :: OccursAt(needle, hay, i)
  }

  lemma OccursInMiddle(a: string, b: string, c: string)
    ensures OccursAt(b, a + b + c, |a|)
  {
  }

  /** `save_alert_chart(data, COLUMN_TO_MONITOR)`: a chart titled with the
      monitored column, drawn over the whole series, with a marker on each
      flagged row and on no other, in series order. */
  function RenderAlertChart(rows: seq<Row>, title: string): (c: Chart)
    ensures c.title == Some(title) && c.series == rows
    ensures |c.markers| == |MarkerPositions(rows)|
    ensures forall j :: 0 <= j < |c.markers| ==> c.markers[j] == rows[MarkerPositions(rows)[j]]
  {
    Chart(Some(title), rows, AnomalyRows(rows))
  }

  /** The message `notify` builds: the subject names the monitored column,
      the body's `src="cid:..."` attribute names exactly the attachment's
      content id, and the inline PNG attachment carries the chart. */
  function AlertMail(config: Config, chart: Chart): (m: Mail)
    ensures m.subject == "Anomaly detected on " + config.columnToMonitor
    ensures m.fromEmail == config.senderAddress && m.toEmails == config.alertReceivers
    ensures m.attachment.disposition == "inline" && m.attachment.fileContent == chart
    ensures m.attachment.fileName == "alert_chart.png" && m.attachment.fileType == "image/png"
    ensures m.attachment.contentId == "alert_chart"
    ensures Occurs("src=\"cid:" + m.attachment.contentId + "\"", m.htmlContent)
    ensures Occurs(config.columnToMonitor, m.htmlContent)
  {
    var opening := "\n      <p>\n        Anomalies were detected on ";
    var middle := "\n      </p>\n      <img ";
    var reference := "src=\"cid:alert_chart\"";
    var closing := ">\n      ";
    var html := opening + config.columnToMonitor + middle + reference + closing;
    var attachment := Attachment("inline", "alert_chart.png", "image/png", chart, "alert_chart");
    OccursInMiddle(opening + config.columnToMonitor + middle, reference, closing);
    OccursInMiddle(opening, config.columnToMonitor, middle + reference + closing);
    assert opening + config.columnToMonitor + (middle + reference + closing) == html;
    assert "src=\"cid:" + attachment.contentId + "\"" == reference;
    Mail(config.senderAddress, config.alertReceivers,
         "Anomaly detected on " + config.columnToMonitor, html, attachment)
  }

  /** The detector of one deployment; `outbox` records every message handed
      to SendGrid, oldest first. */
  class Detector {
    const config: Config
    var outbox: seq<Mail>

    constructor (config: Config)
      requires config.consecutiveAnomaliesReq >= 1
      ensures this.config == config && outbox == []
    {
      this.config := config;
      outbox := [];
    }

    /** `notify`: render the chart of the series and send exactly one mail. */
    method Notify(rows: seq<Row>)
      modifies this
      ensures outbox == old(outbox) + [AlertMail(config, RenderAlertChart(rows, config.columnToMonitor))]
    {
      var chart := RenderAlertChart(rows, config.columnToMonitor);
      var message := AlertMail(config, chart);
      outbox := outbox + [message];
    }

    /** `detect_and_notify` on the series the anomaly query returned: one
        mail and "ALERT_SENT" when the rule fires, no mail and "OK" when it
        does not. */
    method DetectAndNotify(rows: seq<Row>) returns (status: string)
      requires config.consecutiveAnomaliesReq >= 1
      modifies this
      ensures status == "ALERT_SENT" || status == "OK"
      ensures status == "ALERT_SENT" <==> ShouldNotify(AnomalyFlags(rows), config.consecutiveAnomaliesReq)
      ensures status == "ALERT_SENT" ==>
        outbox == old(outbox) + [AlertMail(config, RenderAlertChart(rows, config.columnToMonitor))]
      ensures status == "OK" ==> outbox == old(outbox)
    {
      if ShouldNotify(AnomalyFlags(rows), config.consecutiveAnomaliesReq) {
        Notify(rows);
        return "ALERT_SENT";
      } else {
        return "OK";
      }
    }
  }

  /** Rows of a series whose flags are `flags`; the other columns do not
      take part in the decision. */
  function SeriesOf(flags: seq<bool>): (rows: seq<Row>)
    ensures AnomalyFlags(rows) == flags
  {
    seq(|flags|, i requires 0 <= i < |flags| => Row(i, 0.0, 0.0, 0.0, flags[i]))
  }

  /** The workflow on two series of the unit tests, at the example
      configuration: the series that ends in three anomalies sends one mail,
      the one that recovered sends none. */
  method WorkflowScenarios() returns (first: string, second: string, sent: nat)
    ensures first == "ALERT_SENT" && second == "OK" && sent == 1
  {
    var detector := new Detector(ExampleConfig);
    UnitTestCases();
    first := detector.DetectAndNotify(SeriesOf([false, true, false, true, true, true]));
    second := detector.DetectAndNotify(SeriesOf([true, true, true, false, true]));
    sent := |detector.outbox|;
  }
}
