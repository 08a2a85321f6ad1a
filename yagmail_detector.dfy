/**
 * The older revision of the detector (top-level anomaly_detector.py): on an
 * alert it saves the chart to a file, then sends one message through the
 * Gmail SMTP client that inlines that file by name.
 *
 * The anomaly query is not modelled: the series it would return is a
 * parameter of DetectAndNotify. The working directory is the `files` map
 * from file name to the chart saved there; delivery is modelled as
 * appending the message to `outbox`.
 */
module YagmailDetector {
  import opened AnomalyRule

  /** The settings the module imports from its configuration. */
  datatype Config = Config(
    senderGmailAddress: string,
    alertReceivers: seq<string>,
    consecutiveAnomaliesReq: int)

  /** One element of the message contents: markup, or a file to inline. */
  datatype Content = Html(markup: string) | Inline(fileName: string)

  datatype SmtpMessage = SmtpMessage(
    sender: string,
    to: seq<string>,
    subject: string,
    contents: seq<Content>)

  /** The fixed file name `notify` saves the chart under. */
  const ChartFileName: string := "chart.png"

  /** The message `notify` sends: the fixed subject, to the configured
      receivers, with a heading and the chart file inlined by name. */
  function AlertMessage(config: Config): (m: SmtpMessage)
    ensures m.subject == "Anomaly detected"
    ensures m.sender == config.senderGmailAddress && m.to == config.alertReceivers
    ensures Inline(ChartFileName) in m.contents
    ensures forall c :: c in m.contents && c.Inline? ==> c.fileName == ChartFileName
  {
    SmtpMessage(config.senderGmailAddress, config.alertReceivers, "Anomaly detected",
                [Html("<h1>Anomaly detected</h1>"), Inline(ChartFileName)])
  }

  class Detector {
    const config: Config
    var files: map<string, Chart>
    var outbox: seq<SmtpMessage>

    constructor (config: Config, files: map<string, Chart>)
      requires config.consecutiveAnomaliesReq >= 1
      ensures this.config == config && this.files == files && outbox == []
    {
      this.config := config;
      this.files := files;
      outbox := [];
    }

    /** `save_alert_chart(data, filename)`: the untitled chart of the whole
        series, with a marker on each flagged row, is written to `filename`,
        replacing what was there; nothing is sent. */
    method SaveAlertChart(rows: seq<Row>, filename: string)
      modifies this
      ensures files == old(files)[filename := Chart(None, rows, AnomalyRows(rows))]
      ensures outbox == old(outbox)
    {
      files := files[filename := Chart(None, rows, AnomalyRows(rows))];
    }

    /** `notify`: save the chart, then send exactly one message, whose every
        inlined file is the chart of this series. */
    method Notify(rows: seq<Row>)
      modifies this
      ensures files == old(files)[ChartFileName := Chart(None, rows, AnomalyRows(rows))]
      ensures outbox == old(outbox) + [AlertMessage(config)]
      ensures forall c :: c in outbox[|outbox| - 1].contents && c.Inline? ==>
        c.fileName in files && files[c.fileName] == Chart(None, rows, AnomalyRows(rows))
    {
      SaveAlertChart(rows, ChartFileName);
      outbox := outbox + [AlertMessage(config)];
    }

    /** `detect_and_notify` on the series the anomaly query returned: chart
        saved, one message and "ALERT_SENT" when the rule fires; nothing
        written, nothing sent and "OK" when it does not. */
    method DetectAndNotify(rows: seq<Row>) returns (status: string)
      requires config.consecutiveAnomaliesReq >= 1
      modifies this
      ensures status == "ALERT_SENT" || status == "OK"
      ensures status == "ALERT_SENT" <==> ShouldNotify(AnomalyFlags(rows), config.consecutiveAnomaliesReq)
      ensures status == "ALERT_SENT" ==>
        outbox == old(outbox) + [AlertMessage(config)] &&
        files == old(files)[ChartFileName := Chart(None, rows, AnomalyRows(rows))]
      ensures status == "OK" ==> outbox == old(outbox) && files == old(files)
    {
      if ShouldNotify(AnomalyFlags(rows), config.consecutiveAnomaliesReq) {
        Notify(rows);
        return "ALERT_SENT";
      } else {
        return "OK";
      }
    }
  }
}
