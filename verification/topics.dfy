/** A topic message: the value callers register with the logger and pass to
    each output call. Swift declares it as a protocol with three string
    properties; the model uses a plain record. */
module Topics {

  datatype TopicMessage = TopicMessage(id: string, title: string, icon: string)
}
