/**
 * InitializeQueue of cmd/setup/setup.go: build the queue, connect the
 * RabbitMQ driver, and attach it only once the connection succeeded.
 */
module Setup {

  import opened Failures
  import opened Json
  import opened MessageBroker

  /**
   * On a failed dial the error is returned with no queue (the source also
   * calls log.Fatal, which ends the process); otherwise the queue holds the
   * configuration and a freshly connected driver for the configured URL.
   */
  method InitializeQueue(config: Config, json: Codec, answer: nat -> Outcome, dialAnswer: nat -> Outcome)
    returns (queue: Queue?, err: Outcome)
    ensures err == dialAnswer(0)
    ensures queue != null <==> err.Ok?
    ensures queue != null ==>
              && fresh(queue) && queue.config == config
              && queue.driver != null && fresh(queue.driver)
              && queue.driver.url == config.rabbitMQURL && queue.driver.json == json
              && queue.driver.answer == answer && queue.driver.dialAnswer == dialAnswer
              && queue.driver.log == [Dial(config.rabbitMQURL)] && queue.driver.consumers == map[]
  {
    var q := new Queue(config);
    var driver, dialErr := NewRabbitMQ(config.rabbitMQURL, json, answer, dialAnswer);
    if dialErr.Failed? {
      return null, dialErr;
    }
    q.driver := driver;
    queue, err := q, Ok;
  }
}
