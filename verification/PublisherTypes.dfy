/** Types shared by the models of the QUIC publisher. */
module PublisherTypes {
  import opened Basics

  type Cid = Bytes
  type Topic = string
  type Subscriptions = map<Topic, set<Cid>>
}
