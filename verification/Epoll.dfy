/** What epoll_wait reports. */
module Epoll {
  /** Broken stands for EPOLLERR, EPOLLHUP, or an event without EPOLLIN. */
  datatype Kind = Readable | Broken

  /** An event on connection conn, however connections are named. */
  datatype EpollEvent<C> = EpollEvent(conn: C, kind: Kind)
}
