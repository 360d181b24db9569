/** The protobuf messages the greeter aggregate and the search query exchange. */
module Proto {
  import opened Wrappers

  datatype Greeting = Greeting(message: string)

  datatype GreetCommand = GreetCommand(message: Option<Greeting>)

  datatype Acknowledgement = Acknowledgement(message: string)

  /** The message type `Empty` returned by the record and stop commands */
  datatype Empty = Empty
}
